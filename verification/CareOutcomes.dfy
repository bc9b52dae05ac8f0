/** How sessions end: what cancelling, failing and checking out do to rows, points and ledger; any reachable state. */
module CareOutcomes {
  import opened Prelude
  import opened CareModel
  import opened CareBooks
  import opened CareInvariants
  import opened CareSteps
  import opened CareRuns

  /** In microseconds. */
  const HALF_HOUR := 1_800_000_000

  ghost predicate PartyTo(s: State, id: SessionId, user: UserId) {
    0 <= id < |s.sessions| && user in {s.sessions[id].requester, s.sessions[id].provider}
  }

  ghost predicate ProvidedBy(s: State, id: SessionId, user: UserId) {
    0 <= id < |s.sessions| && user == s.sessions[id].provider
  }

  predicate Gains(s: State, t: State, user: UserId, balance: int, held: int) {
    && BalanceOf(t.accounts, user) == BalanceOf(s.accounts, user) + balance
    && HeldOf(t.accounts, user) == HeldOf(s.accounts, user) + held
  }

  /** The requester's two balances and the provider's balance change by so much, and nobody else's change. */
  ghost predicate Pays(s: State, t: State, care: CareSession, balance: int, held: int, provider: int) {
    && Gains(s, t, care.requester, balance, held) && Gains(s, t, care.provider, provider, 0)
    && forall user :: user !in {care.requester, care.provider} ==> Gains(s, t, user, 0, 0)
  }

  /** Length of the session when it has a hold. */
  function Reserved(s: State, id: nat): int
    requires id < |s.sessions|
  {
    if FindHold(s.holds, id).Some? then s.sessions[id].end - s.sessions[id].start else 0
  }

  /** Only the row, its hold, accounts and ledger may change. */
  ghost predicate EndsRow(s: State, t: State, id: nat, row: CareSession)
    requires id < |s.sessions|
  {
    t == s.(sessions := s.sessions[id := row], holds := t.holds, accounts := t.accounts,
            transactions := t.transactions, entries := t.entries)
  }

  /** The session's hold, if any, gets the status, now; a payment is booked under the reason, nothing else is. */
  ghost predicate Booked(s: State, t: State, id: nat, status: HoldStatus, now: int, reason: Option<Reason>) {
    && |t.holds| == |s.holds|
    && (forall k :: 0 <= k < |s.holds| ==>
          t.holds[k] == if s.holds[k].session == id then s.holds[k].(status := status, resolvedAt := Some(now))
                        else s.holds[k])
    && t.transactions == s.transactions + if reason.Some? then [Transaction(reason.value, Some(id))] else []
  }

  // ------------------------------------------------------------------ ending a hold

  lemma ResolvePaysOut(s: State, edited: State, id: nat, k: nat, status: HoldStatus, slots: int, reason: Option<Reason>,
                       at: Option<int>)
    requires id < |s.sessions| && s.sessions[id].requester != s.sessions[id].provider
    requires k < |s.holds| && HoldMatches(s, s.holds[k]) && s.holds[k].session == id
    requires edited == s.(sessions := edited.sessions) && (reason.Some? <==> slots > 0)
    ensures var amount := s.sessions[id].end - s.sessions[id].start;
      Pays(s, Resolve(edited, k, status, slots, reason, at), s.sessions[id], amount - slots, -amount, Max(slots, 0))
  {}

  lemma ResolveBooks(s: State, edited: State, id: nat, k: nat, status: HoldStatus, slots: int, reason: Option<Reason>,
                     now: int)
    requires HoldsMatch(s) && k < |s.holds| && s.holds[k].session == id && edited == s.(sessions := edited.sessions)
    ensures Booked(s, Resolve(edited, k, status, slots, reason, Some(now)), id, status, now, reason)
  {}

  /** A live hold belongs to a confirmed session that is not checked out. */
  lemma OpenHold(s: State, id: nat)
    requires Inv(s) && id < |s.sessions| && FindHold(s.holds, id).Some? && s.sessions[id].Active()
    requires s.sessions[id].checkoutAt.None?
    ensures var hold := s.holds[FindHold(s.holds, id).value];
      s.sessions[id].status == Confirmed && hold.status == Held && HoldMatches(s, hold)
  {
    HoldOfOpenSession(s, id);
    assert HoldMatches(s, s.holds[FindHold(s.holds, id).value]);
  }

  /** The hold, if any, goes to the provider, which is booked under the reason, or back to the requester. */
  ghost predicate Ends(s: State, t: State, id: nat, forfeits: bool, reason: Reason, now: int)
    requires id < |s.sessions|
  {
    var care, amount := s.sessions[id], Reserved(s, id);
    if forfeits then
      && Pays(s, t, care, 0, -amount, amount)
      && Booked(s, t, id, Forfeited, now, if FindHold(s.holds, id).Some? then Some(reason) else None)
    else
      Pays(s, t, care, amount, -amount, 0) && Booked(s, t, id, Released, now, None)
  }

  /** Row id of a confirmed session that is not checked out is replaced by one that ended now. */
  ghost predicate Ending(s: State, edited: State, id: nat, now: int) {
    && Inv(s) && id < |s.sessions| && s.sessions[id].status == Confirmed && s.sessions[id].checkoutAt.None?
    && s.sessions[id].requester != s.sessions[id].provider
    && |edited.sessions| == |s.sessions| && edited == s.(sessions := s.sessions[id := edited.sessions[id]])
    && edited.sessions[id].requester == s.sessions[id].requester && edited.sessions[id].cancelledAt == Some(now)
  }

  lemma EndingHold(s: State, edited: State, id: nat, forfeits: bool, reason: Reason, now: int)
    requires Ending(s, edited, id, now) && FindHold(s.holds, id).Some?
    ensures var k := FindHold(s.holds, id).value;
      && s.holds[k].status == Held && s.holds[k].payer == s.sessions[id].requester
      && (forfeits ==>
            Ends(s, Resolve(edited, k, Forfeited, s.holds[k].amount, Some(reason), Some(now)), id, true, reason, now))
      && (!forfeits ==> Ends(s, Resolve(edited, k, Released, 0, None, Some(now)), id, false, reason, now))
  {
    OpenHold(s, id);
    var k := FindHold(s.holds, id).value;
    if forfeits {
      ResolvePaysOut(s, edited, id, k, Forfeited, s.holds[k].amount, Some(reason), Some(now));
      ResolveBooks(s, edited, id, k, Forfeited, s.holds[k].amount, Some(reason), now);
    } else {
      ResolvePaysOut(s, edited, id, k, Released, 0, None, Some(now));
      ResolveBooks(s, edited, id, k, Released, 0, None, now);
    }
  }

  lemma NoHoldEnds(s: State, edited: State, id: nat, forfeits: bool, reason: Reason, now: int)
    requires id < |s.sessions| && FindHold(s.holds, id).None? && edited == s.(sessions := edited.sessions)
    ensures Ends(s, edited, id, forfeits, reason, now)
  {}

  lemma CancelEnds(s: State, edited: State, id: nat, pastDeadline: bool, now: int)
    requires Ending(s, edited, id, now)
    ensures var t := ResolveOnCancel(edited, id, pastDeadline);
      && EndsRow(s, t, id, edited.sessions[id])
      && Ends(s, t, id, pastDeadline && edited.sessions[id].atFault == Some(s.sessions[id].requester), CancelPenalty,
              now)
  {
    var forfeits := pastDeadline && edited.sessions[id].atFault == Some(s.sessions[id].requester);
    if FindHold(s.holds, id).Some? {
      EndingHold(s, edited, id, forfeits, CancelPenalty, now);
    } else {
      NoHoldEnds(s, edited, id, forfeits, CancelPenalty, now);
    }
  }

  lemma NoShowEnds(s: State, edited: State, id: nat, now: int)
    requires Ending(s, edited, id, now)
    ensures var t := ResolveOnNoShow(edited, id);
      && EndsRow(s, t, id, edited.sessions[id])
      && Ends(s, t, id, edited.sessions[id].atFault == Some(s.sessions[id].requester), NoShowPenalty, now)
  {
    var forfeits := edited.sessions[id].atFault == Some(s.sessions[id].requester);
    if FindHold(s.holds, id).Some? {
      EndingHold(s, edited, id, forfeits, NoShowPenalty, now);
    } else {
      NoHoldEnds(s, edited, id, forfeits, NoShowPenalty, now);
    }
  }

  // ------------------------------------------------------------------ cancelling

  /** A cancellation counts as late from two hours, which are four slots, before the start of a confirmed session. */
  predicate Late(care: CareSession, now: int) {
    care.status == Confirmed && now > (care.day * 48 + care.start - 4) * HALF_HOUR
  }

  lemma LateIsPastDeadline(care: CareSession, now: int)
    ensures Late(care, now) <==> care.status == Confirmed && PastDeadline(care, now)
  {}

  /** Row id is cancelled by the actor, who is at fault when late. The hold comes back but from a late requester. */
  ghost predicate CancelledAs(s: State, t: State, id: nat, actor: UserId, now: int)
    requires id < |s.sessions|
  {
    var care := s.sessions[id];
    && EndsRow(s, t, id, care.(status := Cancelled, cancelledAt := Some(now),
                               atFault := if Late(care, now) then Some(actor) else None))
    && Ends(s, t, id, Late(care, now) && actor == care.requester, CancelPenalty, now)
  }

  lemma ConfirmedCancel(s: State, edited: State, id: nat, care: CareSession, actor: UserId, now: int, late: bool)
    requires Inv(s) && id < |s.sessions| && care == s.sessions[id] && late == Late(care, now)
    requires care.status == Confirmed && care.checkinAt.None? && edited == Edit(s, id, CancelledBy(care, actor, now))
    ensures CancelledAs(s, ResolveOnCancel(edited, id, late), id, actor, now)
  {
    assert RowOk(care, s.children);
    LateIsPastDeadline(care, now);
    CancelEnds(s, edited, id, late, now);
  }

  lemma RequestedCancel(s: State, edited: State, id: nat, care: CareSession, actor: UserId, now: int)
    requires Inv(s) && id < |s.sessions| && care == s.sessions[id]
    requires care.status == Requested && edited == Edit(s, id, CancelledBy(care, actor, now))
    ensures CancelledAs(s, edited, id, actor, now)
  {
    assert RowOk(care, s.children);
    HoldOfOpenSession(s, id);
    NoHoldEnds(s, edited, id, false, CancelPenalty, now);
  }

  lemma CancelEffect(s: State, id: nat, actor: UserId, now: int)
    requires Inv(s) && Cancel(s, id, actor, now).reply == Done
    ensures CancelledAs(s, Cancel(s, id, actor, now).state, id, actor, now)
  {
    var care := s.sessions[id];
    var edited := Edit(s, id, CancelledBy(care, actor, now));
    LateIsPastDeadline(care, now);
    if care.status == Confirmed {
      ConfirmedCancel(s, edited, id, care, actor, now, Late(care, now));
    } else {
      RequestedCancel(s, edited, id, care, actor, now);
    }
  }

  lemma CancelReply(s: State, id: SessionId, actor: UserId, now: int)
    ensures var result := Cancel(s, id, actor, now);
      && (result.reply == NotFound <==> !PartyTo(s, id, actor))
      && (result.reply == Done <==>
            PartyTo(s, id, actor) && s.sessions[id].status in {Requested, Confirmed} && s.sessions[id].checkinAt.None?)
      && result.reply in {Done, NotFound, Conflict} && (result.reply != Done ==> result.state == s)
  {}

  /** A party, and nobody else, can cancel a session until it ends or somebody checks in; refusals change nothing. */
  lemma CancelOutcome(s: State, children: map<int, UserId>, calls: seq<Timed>, id: SessionId, actor: UserId, now: int)
    requires Reached(s, children, calls)
    ensures var result := Cancel(s, id, actor, now);
      && (result.reply == NotFound <==> !PartyTo(s, id, actor))
      && (result.reply == Done <==>
            PartyTo(s, id, actor) && s.sessions[id].status in {Requested, Confirmed} && s.sessions[id].checkinAt.None?)
      && result.reply in {Done, NotFound, Conflict} && (result.reply != Done ==> result.state == s)
      && (result.reply == Done ==> CancelledAs(s, result.state, id, actor, now))
  {
    ReachedInv(s, children, calls);
    CancelReply(s, id, actor, now);
    if Cancel(s, id, actor, now).reply == Done { CancelEffect(s, id, actor, now); }
  }

  // ------------------------------------------------------------------ no-shows

  /** Row id becomes a no-show of the other party than the reporter; an absent requester's hold goes to the provider. */
  ghost predicate FailedAs(s: State, t: State, id: nat, reporter: UserId, now: int)
    requires id < |s.sessions|
  {
    var care := s.sessions[id];
    && |t.sessions| == |s.sessions| && t.sessions[id].atFault.Some?
    && {reporter, t.sessions[id].atFault.value} == {care.requester, care.provider}
    && EndsRow(s, t, id, care.(status := NoShow, cancelledAt := Some(now), atFault := t.sessions[id].atFault))
    && Ends(s, t, id, reporter == care.provider, NoShowPenalty, now)
  }

  /** The end of the session has come. */
  predicate Over(care: CareSession, now: int) { now >= (care.day * 48 + care.end) * HALF_HOUR }

  lemma NoShowReply(s: State, id: SessionId, reporter: UserId, now: int)
    ensures var result := ReportNoShow(s, id, reporter, now);
      && (result.reply == NotFound <==> !PartyTo(s, id, reporter))
      && (result.reply == Conflict <==>
            PartyTo(s, id, reporter) && !(s.sessions[id].status == Confirmed && s.sessions[id].checkinAt.None?))
      && (result.reply == Done <==>
            PartyTo(s, id, reporter) && s.sessions[id].status == Confirmed && s.sessions[id].checkinAt.None?
            && Over(s.sessions[id], now))
      && result.reply in {Done, NotFound, Conflict, BadRequest} && (result.reply != Done ==> result.state == s)
  {}

  lemma NoShowEffect(s: State, id: nat, reporter: UserId, now: int)
    requires Inv(s) && ReportNoShow(s, id, reporter, now).reply == Done
    ensures FailedAs(s, ReportNoShow(s, id, reporter, now).state, id, reporter, now)
  {
    assert RowOk(s.sessions[id], s.children);
    NoShowEnds(s, Edit(s, id, FailedBy(s.sessions[id], reporter, now)), id, now);
  }

  /** A party, and nobody else, can report a no-show once a confirmed session nobody checked in to is over. */
  lemma NoShowOutcome(s: State, children: map<int, UserId>, calls: seq<Timed>, id: SessionId, reporter: UserId,
                      now: int)
    requires Reached(s, children, calls)
    ensures var result := ReportNoShow(s, id, reporter, now);
      && (result.reply == NotFound <==> !PartyTo(s, id, reporter))
      && (result.reply == Conflict <==>
            PartyTo(s, id, reporter) && !(s.sessions[id].status == Confirmed && s.sessions[id].checkinAt.None?))
      && (result.reply == Done <==>
            PartyTo(s, id, reporter) && s.sessions[id].status == Confirmed && s.sessions[id].checkinAt.None?
            && Over(s.sessions[id], now))
      && result.reply in {Done, NotFound, Conflict, BadRequest} && (result.reply != Done ==> result.state == s)
      && (result.reply == Done ==> FailedAs(s, result.state, id, reporter, now))
  {
    ReachedInv(s, children, calls);
    NoShowReply(s, id, reporter, now);
    if ReportNoShow(s, id, reporter, now).reply == Done { NoShowEffect(s, id, reporter, now); }
  }

  // ------------------------------------------------------------------ checking out

  /** Half hours from check-in to check-out, incomplete ones not counted. */
  function Worked(care: CareSession, now: int): int
    requires care.checkinAt.Some?
  {
    (now - care.checkinAt.value) / HALF_HOUR
  }

  lemma FullHalfHours(time: int)
    ensures time / MINUTE / SLOT_MINUTES == time / HALF_HOUR
  {}

  /** Slots to be paid: at most what is reserved if anything is, and never negative if nothing is. */
  function Due(s: State, id: nat, worked: int): int
    requires id < |s.sessions|
  {
    if FindHold(s.holds, id).Some? then Min(worked, s.sessions[id].end - s.sessions[id].start) else Max(worked, 0)
  }

  lemma TransferPaysOut(s: State, edited: State, care: CareSession, amount: int, id: SessionId)
    requires care.requester != care.provider && edited == s.(sessions := edited.sessions)
    ensures Pays(s, Transfer(edited, care.requester, care.provider, amount, Settlement, id), care, -amount, 0, amount)
  {}

  /** Row id was just edited to be checked out; nothing has been settled for it. */
  ghost predicate Settling(s: State, edited: State, id: nat, worked: int, now: int) {
    && HoldsMatch(s) && id < |s.sessions| && s.sessions[id].requester != s.sessions[id].provider
    && s.sessions[id].start < s.sessions[id].end && !HasSettled(s.transactions, id)
    && |edited.sessions| == |s.sessions| && edited == s.(sessions := s.sessions[id := edited.sessions[id]])
    && edited.sessions[id].requester == s.sessions[id].requester
    && edited.sessions[id].provider == s.sessions[id].provider
    && worked == RawSlots(edited.sessions[id]) && edited.sessions[id].checkoutAt == Some(now)
    && (FindHold(s.holds, id).Some? ==> s.holds[FindHold(s.holds, id).value].status == Held)
  }

  /**
   * The provider is paid the slots, which is booked as a settlement if there are any; the rest of the reservation comes
   * back and the hold is settled. With a hold and a clock behind the check-in the slots are negative: the requester
   * gets them on top, the provider nothing.
   */
  ghost predicate PaidFor(s: State, t: State, id: nat, worked: int, now: int)
    requires id < |s.sessions|
  {
    var reserved, slots := Reserved(s, id), Due(s, id, worked);
    && Pays(s, t, s.sessions[id], reserved - slots, -reserved, Max(slots, 0))
    && Booked(s, t, id, Settled, now, if slots > 0 then Some(Settlement) else None)
  }

  /** The row has its check-out time and full minutes, and the worked half hours are paid. */
  ghost predicate SettledAs(s: State, t: State, id: nat, now: int)
    requires id < |s.sessions| && s.sessions[id].checkinAt.Some?
  {
    var care := s.sessions[id];
    && EndsRow(s, t, id, care.(checkoutAt := Some(now),
                               actualMinutes := Some((now - care.checkinAt.value) / 60_000_000)))
    && PaidFor(s, t, id, Worked(care, now), now)
  }

  lemma SettleHoldPays(s: State, edited: State, id: nat, worked: int, now: int, k: nat)
    requires Settling(s, edited, id, worked, now) && FindHold(s.holds, id) == Some(k)
    ensures PaidFor(s, Settle(edited, id), id, worked, now)
  {
    var slots := Due(s, id, worked);
    var reason := if slots <= 0 then None else Some(Settlement);
    assert HoldMatches(s, s.holds[k]);
    ResolvePaysOut(s, edited, id, k, Settled, slots, reason, Some(now));
    ResolveBooks(s, edited, id, k, Settled, slots, reason, now);
  }

  lemma SettleTransferPays(s: State, edited: State, id: nat, worked: int, now: int)
    requires Settling(s, edited, id, worked, now) && FindHold(s.holds, id).None?
    ensures PaidFor(s, Settle(edited, id), id, worked, now)
  {
    TransferPaysOut(s, edited, s.sessions[id], worked, id);
  }

  lemma CheckoutSettles(s: State, edited: State, id: nat, care: CareSession, now: int)
    requires Inv(s) && id < |s.sessions| && care == s.sessions[id] && care.status == Confirmed
    requires care.checkinAt.Some? && care.checkoutAt.None? && edited == Edit(s, id, CheckedOut(care, now))
    ensures Settling(s, edited, id, Worked(care, now), now)
  {
    assert RowOk(care, s.children);
    NotSettledYet(s, id);
    FullHalfHours(now - care.checkinAt.value);
    if FindHold(s.holds, id).Some? { OpenHold(s, id); }
  }

  lemma SettleEdits(s: State, edited: State, id: nat, care: CareSession, now: int)
    requires id < |s.sessions| && care == s.sessions[id] && care.checkinAt.Some?
    requires edited == Edit(s, id, CheckedOut(care, now))
    ensures EndsRow(s, Settle(edited, id), id,
                    care.(checkoutAt := Some(now), actualMinutes := Some((now - care.checkinAt.value) / 60_000_000)))
  {}

  lemma CheckoutEffect(s: State, id: nat, provider: UserId, now: int)
    requires Inv(s) && Checkout(s, id, provider, now).reply == Done
    ensures SettledAs(s, Checkout(s, id, provider, now).state, id, now)
  {
    var care := s.sessions[id];
    var edited := Edit(s, id, CheckedOut(care, now));
    CheckoutSettles(s, edited, id, care, now);
    SettleEdits(s, edited, id, care, now);
    if FindHold(s.holds, id).Some? {
      SettleHoldPays(s, edited, id, Worked(care, now), now, FindHold(s.holds, id).value);
    } else {
      SettleTransferPays(s, edited, id, Worked(care, now), now);
    }
  }

  lemma CheckoutReply(s: State, id: SessionId, provider: UserId, now: int)
    ensures var result := Checkout(s, id, provider, now);
      && (result.reply == NotFound <==> !ProvidedBy(s, id, provider))
      && (result.reply == Done <==>
            ProvidedBy(s, id, provider) && s.sessions[id].status == Confirmed
            && s.sessions[id].checkinAt.Some? && s.sessions[id].checkoutAt.None?)
      && result.reply in {Done, NotFound, Conflict} && (result.reply != Done ==> result.state == s)
  {}

  /** The provider, and nobody else, can check out once, after the check-in, unless the session was ended meanwhile. */
  lemma CheckoutOutcome(s: State, children: map<int, UserId>, calls: seq<Timed>, id: SessionId, provider: UserId,
                        now: int)
    requires Reached(s, children, calls)
    ensures var result := Checkout(s, id, provider, now);
      && (result.reply == NotFound <==> !ProvidedBy(s, id, provider))
      && (result.reply == Done <==>
            ProvidedBy(s, id, provider) && s.sessions[id].status == Confirmed
            && s.sessions[id].checkinAt.Some? && s.sessions[id].checkoutAt.None?)
      && result.reply in {Done, NotFound, Conflict} && (result.reply != Done ==> result.state == s)
      && (result.reply == Done ==> SettledAs(s, result.state, id, now))
  {
    ReachedInv(s, children, calls);
    CheckoutReply(s, id, provider, now);
    if Checkout(s, id, provider, now).reply == Done { CheckoutEffect(s, id, provider, now); }
  }

  // ------------------------------------------------------------------ held points

  /** In a state that keeps the invariant, what is held of a user is what their live holds reserve. */
  lemma HeldFollows(s: State, t: State, id: nat)
    requires Inv(s) && Inv(t) && id < |s.sessions|
    requires HeldOf(t.accounts, s.sessions[id].requester)
          == HeldOf(s.accounts, s.sessions[id].requester) - s.sessions[id].Length()
    ensures HeldSum(t.holds, s.sessions[id].requester)
         == HeldSum(s.holds, s.sessions[id].requester) - s.sessions[id].Length()
  {
    assert AccountAgrees(s, s.sessions[id].requester) && AccountAgrees(t, s.sessions[id].requester);
  }

  /** The call that ends a live hold: the requester cancels before check-in, the provider checks out after it. */
  function FreeingCall(s: State, k: nat): Call
    requires k < |s.holds| && 0 <= s.holds[k].session < |s.sessions|
  {
    var id := s.holds[k].session;
    if s.sessions[id].checkinAt.None? then CallCancel(id, s.sessions[id].requester)
    else CallCheckout(id, s.sessions[id].provider)
  }

  /** The call succeeds and takes the session's reservation out of the requester's held points. */
  ghost predicate Frees(s: State, result: Result, id: nat) {
    && id < |s.sessions| && result.reply == Done
    && HeldOf(result.state.accounts, s.sessions[id].requester)
       == HeldOf(s.accounts, s.sessions[id].requester) - Reserved(s, id)
  }

  lemma CancelFrees(s: State, children: map<int, UserId>, calls: seq<Timed>, id: nat, now: int)
    requires Reached(s, children, calls) && id < |s.sessions|
    requires s.sessions[id].status == Confirmed && s.sessions[id].checkinAt.None?
    ensures Frees(s, Cancel(s, id, s.sessions[id].requester, now), id)
  {
    CancelOutcome(s, children, calls, id, s.sessions[id].requester, now);
  }

  lemma CheckoutFrees(s: State, children: map<int, UserId>, calls: seq<Timed>, id: nat, now: int)
    requires Reached(s, children, calls) && id < |s.sessions|
    requires s.sessions[id].status == Confirmed && s.sessions[id].checkinAt.Some? && s.sessions[id].checkoutAt.None?
    ensures Frees(s, Checkout(s, id, s.sessions[id].provider, now), id)
  {
    CheckoutOutcome(s, children, calls, id, s.sessions[id].provider, now);
  }

  lemma StepFrees(s: State, children: map<int, UserId>, calls: seq<Timed>, k: nat, now: int)
    requires Reached(s, children, calls) && k < |s.holds| && s.holds[k].status == Held
    ensures 0 <= s.holds[k].session < |s.sessions|
    ensures Frees(s, Step(s, FreeingCall(s, k), now), s.holds[k].session)
  {
    HoldFollowsSession(s, children, calls, k);
    var id := s.holds[k].session;
    if s.sessions[id].checkinAt.None? {
      CancelFrees(s, children, calls, id, now);
    } else {
      CheckoutFrees(s, children, calls, id, now);
    }
  }

  /** Held points can be freed in every reachable state and whatever the clock reads, one hold at a time. */
  lemma HeldPointsCanBeFreed(s: State, children: map<int, UserId>, calls: seq<Timed>, k: nat, now: int)
    requires Reached(s, children, calls) && k < |s.holds| && s.holds[k].status == Held
    ensures 0 <= s.holds[k].session < |s.sessions|
    ensures var Result(t, reply) := Step(s, FreeingCall(s, k), now);
      && reply == Done
      && HeldSum(t.holds, s.holds[k].payer) == HeldSum(s.holds, s.holds[k].payer) - s.holds[k].amount
  {
    StepFrees(s, children, calls, k, now);
    HoldFollowsSession(s, children, calls, k);
    ReachedInv(s, children, calls);
    StepKeeps(s, FreeingCall(s, k), now);
    HoldFound(s, k);
    HeldFollows(s, Step(s, FreeingCall(s, k), now).state, s.holds[k].session);
  }
}
