/** One lemma per service call: it keeps the invariant, whatever the clock says. */
module CareSteps {
  import opened Prelude
  import opened ScheduleSlots
  import opened CareModel
  import opened CareBooks
  import opened CareInvariants
  import WorkSchedule

  // ------------------------------------------------------------------ the two ways an edited row ends

  lemma EditStep(s: State, t: State, id: nat, user: UserId)
    requires Inv(s)
    requires EditsRow(s, t.(accounts := s.accounts), id)
    requires t.accounts == s.accounts || t.accounts == Touch(s.accounts, user)
    requires t.sessions[id].checkoutAt == s.sessions[id].checkoutAt
    requires t.sessions[id].actualMinutes == s.sessions[id].actualMinutes
    requires FindHold(s.holds, id).None?
          || HoldAgrees(t.sessions[id], s.holds[FindHold(s.holds, id).value])
    ensures Inv(t)
  {
    var edited := t.(accounts := s.accounts);
    EditKeepsRecords(s, edited, id);
    NoHoldAgreement(edited, id);
    HoldsUntouched(edited, t);
    EditsStay(s, t, user);
    StayKeepsBooks(s, t);
    StayKeepsFloor(s, t);
  }

  lemma HoldsUntouched(s: State, t: State)
    requires HoldsMatch(s) && Agreement(s) && t.sessions == s.sessions && t.holds == s.holds
    ensures HoldsMatch(t) && Agreement(t)
  {
    forall i | 0 <= i < |t.holds| ensures HoldMatches(t, t.holds[i]) { assert HoldMatches(s, s.holds[i]); }
  }

  /** Hold k, which is live, can end its session's edited row with this status and payment. */
  ghost predicate Resolves(s: State, edited: State, id: nat, k: nat, status: HoldStatus, slots: int,
                           reason: Option<Reason>, at: Option<int>)
  {
    && EditsRow(s, edited, id) && s.sessions[id].checkoutAt.None?
    && k < |s.holds| && s.holds[k].session == id && s.holds[k].status == Held && status != Held
    && slots == Worth(edited.sessions[id], s.holds[k], status) && (reason.Some? <==> slots > 0)
    && HoldAgrees(edited.sessions[id], s.holds[k].(status := status, resolvedAt := at))
  }

  lemma ResolveStepRecords(s: State, edited: State, id: nat, k: nat, status: HoldStatus, slots: int,
                           reason: Option<Reason>, at: Option<int>)
    requires Records(s) && Resolves(s, edited, id, k, status, slots, reason, at)
    ensures Records(Resolve(edited, k, status, slots, reason, at))
  {
    EditKeepsRecords(s, edited, id);
    ResolveKeepsHolds(edited, k, status, slots, reason, at);
  }

  lemma ResolveKeepsFloor(s: State, edited: State, id: nat, k: nat, status: HoldStatus, slots: int,
                          reason: Option<Reason>, at: Option<int>)
    requires HoldsMatch(s) && Books(s) && Floor(s) && Edited(s, edited, id)
    requires k < |s.holds| && s.holds[k].session == id && slots <= s.holds[k].amount && s.holds[k].amount >= 0
    requires Moves(s, Resolve(edited, k, status, slots, reason, at), id, s.holds[k].amount, Max(slots, 0),
                   Max(-slots, 0))
    ensures Floor(Resolve(edited, k, status, slots, reason, at))
  {
    var t := Resolve(edited, k, status, slots, reason, at);
    forall j: nat | j < |s.sessions| ensures FallbackPaid(t, j) == FallbackPaid(s, j) {
      FindAfterUpdate(s.holds, k, s.holds[k].(status := status, resolvedAt := at), j);
      HoldFound(s, k);
    }
    MoveKeepsFloor(s, t, id, s.holds[k].amount, Max(slots, 0), Max(-slots, 0), 0);
  }

  lemma ResolveStep(s: State, edited: State, id: nat, k: nat, status: HoldStatus, slots: int, reason: Option<Reason>,
                    at: Option<int>)
    requires Inv(s) && Resolves(s, edited, id, k, status, slots, reason, at)
    ensures Inv(Resolve(edited, k, status, slots, reason, at))
  {
    assert RowOk(s.sessions[id], s.children);
    ResolveStepRecords(s, edited, id, k, status, slots, reason, at);
    ResolveMoves(s, edited, id, k, status, slots, reason, at);
    MoveKeepsBooks(s, Resolve(edited, k, status, slots, reason, at), id, s.holds[k].amount, Max(slots, 0),
                   Max(-slots, 0));
    assert HoldMatches(s, s.holds[k]);
    ResolveKeepsFloor(s, edited, id, k, status, slots, reason, at);
  }

  /** A requested session has no hold; one that is confirmed and not checked out has none or a live one. */
  lemma HoldOfOpenSession(s: State, id: nat)
    requires Rows(s.sessions, s.children) && Agreement(s) && id < |s.sessions|
    ensures s.sessions[id].status == Requested ==> FindHold(s.holds, id).None?
    ensures s.sessions[id].status == Confirmed && s.sessions[id].checkoutAt.None?
      ==> FindHold(s.holds, id).None? || s.holds[FindHold(s.holds, id).value].status == Held
  {
    assert RowOk(s.sessions[id], s.children);
  }

  // ------------------------------------------------------------------ calls beside the books

  /** Changes to neither sessions, holds, accounts nor the ledger. */
  lemma SideStep(s: State, t: State)
    requires Inv(s) && WorkSchedule.AllShaped(t.schedules) && Reviews(s.sessions, t.evaluations)
    requires t == s.(schedules := t.schedules, evaluations := t.evaluations, careLogs := t.careLogs,
                     trust := t.trust, sanctioned := t.sanctioned, inactive := t.inactive,
                     requestLog := t.requestLog)
    ensures Inv(t)
  {
    HoldsUntouched(s, t);
    assert Stays(s, t);
    StayKeepsBooks(s, t);
    StayKeepsFloor(s, t);
  }

  // ------------------------------------------------------------------ requests

  lemma RequestFits(s: State, requester: UserId, provider: UserId, day: int, start: nat, end: nat)
    requires WorkSchedule.AllShaped(s.schedules) && start < end <= SLOT_COUNT
    requires FitsComplementary(start, end, WorkSchedule.MaskOn(s.schedules, requester, day),
                               WorkSchedule.MaskOn(s.schedules, provider, day))
    ensures requester != provider && end - start <= LONGEST_REQUEST
  {
    var mask := WorkSchedule.MaskOn(s.schedules, requester, day);
    FitsComplementaryMeans(start, end, mask, WorkSchedule.MaskOn(s.schedules, provider, day));
    WorkSchedule.TemplateShaped(Off);
    WorkSchedule.LongestBusyRun(mask, start, end);
    if requester == provider { NoSelfCover(start, end, mask); }
  }

  lemma NewRowKeepsRecords(s: State, t: State, care: CareSession)
    requires Records(s) && t == s.(sessions := s.sessions + [care])
    requires RowOk(care, s.children) && care.checkoutAt.None?
    requires forall i :: 0 <= i < |s.sessions| ==> !Clash(s.sessions[i], care)
    ensures Records(t)
  {
    forall i, j | 0 <= i < j < |t.sessions| ensures !Clash(t.sessions[i], t.sessions[j]) {
      if j < |s.sessions| { assert !Clash(s.sessions[i], s.sessions[j]); }
    }
    forall i | 0 <= i < |t.evaluations| ensures ReviewOk(t.sessions, t.evaluations[i]) {
      assert ReviewOk(s.sessions, s.evaluations[i]);
    }
    forall i | 0 <= i < |t.holds| ensures HoldMatches(t, t.holds[i]) { assert HoldMatches(s, s.holds[i]); }
  }

  lemma NewRowKeepsFloor(s: State, t: State, care: CareSession)
    requires Floor(s) && t == s.(sessions := s.sessions + [care]) && care.checkoutAt.None?
    requires FindHold(s.holds, |s.sessions|).None?
    ensures Floor(t)
  {
    forall user ensures AboveFloor(t, user) {
      assert AboveFloor(s, user);
      SumSame(|s.sessions|, FallbackTerms(s, user), FallbackTerms(t, user));
    }
  }

  lemma TouchStep(s: State, user: UserId)
    requires Inv(s)
    ensures Inv(s.(accounts := Touch(s.accounts, user)))
  {
    var t := s.(accounts := Touch(s.accounts, user));
    HoldsUntouched(s, t);
    EditsStay(s, t, user);
    StayKeepsBooks(s, t);
    StayKeepsFloor(s, t);
  }

  lemma NewRowStep(s: State, care: CareSession)
    requires Inv(s) && RowOk(care, s.children) && care.checkoutAt.None?
    requires forall i :: 0 <= i < |s.sessions| ==> !Clash(s.sessions[i], care)
    ensures Inv(s.(sessions := s.sessions + [care]))
  {
    var t := s.(sessions := s.sessions + [care]);
    NoHoldYet(s);
    NewRowKeepsRecords(s, t, care);
    NewSessionKeepsBooks(s, t, care);
    NewRowKeepsFloor(s, t, care);
  }

  lemma CreateRequestStep(s: State, requester: UserId, provider: UserId, child: int, day: int, start: int, end: int,
                          isSolo: bool)
    requires Inv(s)
    ensures Inv(CreateRequest(s, requester, provider, child, day, start, end, isSolo).state)
  {
    var result := CreateRequest(s, requester, provider, child, day, start, end, isSolo);
    TouchStep(s, requester);
    var checked := s.(accounts := Touch(s.accounts, requester));
    if result.reply == Done {
      var care := CareSession(requester, provider, child, day, start, end, Requested, None, None, None, None, None);
      RequestFits(s, requester, provider, day, start, end);
      forall i | 0 <= i < |s.sessions| ensures !Clash(s.sessions[i], care) {
        assert !Overlaps(s.sessions[i], requester, day, start, end);
        assert !Overlaps(s.sessions[i], provider, day, start, end);
      }
      NewRowStep(checked, care);
      SideStep(checked.(sessions := s.sessions + [care]), result.state);
    }
  }

  // ------------------------------------------------------------------ accept

  lemma NewHoldKeepsHolds(edited: State, t: State, id: nat, hold: Hold)
    requires HoldsMatch(edited) && AgreementBut(edited, id) && FindHold(edited.holds, id).None?
    requires t.sessions == edited.sessions && t.holds == edited.holds + [hold]
    requires HoldMatches(edited, hold) && hold.session == id && HoldAgrees(edited.sessions[id], hold)
    ensures HoldsMatch(t) && Agreement(t)
  {
    forall i | 0 <= i < |t.holds|
      ensures HoldMatches(t, t.holds[i]) && HoldAgrees(t.sessions[t.holds[i].session], t.holds[i])
    {
      if i < |edited.holds| { assert HoldMatches(edited, edited.holds[i]); }
    }
  }

  lemma CreateHoldStep(s: State, edited: State, id: nat)
    requires Inv(s) && EditsRow(s, edited, id) && FindHold(s.holds, id).None?
    requires edited.sessions[id].status == Confirmed
    requires s.sessions[id].checkoutAt.None? && edited.sessions[id].checkoutAt.None?
    requires BalanceOf(s.accounts, s.sessions[id].requester) > NEGATIVE_BALANCE_LIMIT
    ensures Inv(CreateHold(edited, id).state)
  {
    var care, t := s.sessions[id], CreateHold(edited, id).state;
    assert RowOk(care, s.children);
    EditKeepsRecords(s, edited, id);
    var hold := Hold(id, care.requester, care.provider, care.Length(), Held, None);
    assert t == edited.(accounts := t.accounts, holds := edited.holds + [hold]);
    FreshHoldAgrees(edited, id, hold);
    NewHoldKeepsHolds(edited, t, id, hold);
    CreateHoldMoves(s, edited, id);
    MoveKeepsBooks(s, t, id, -care.Length(), 0, 0);
    CreateHoldFloor(s, t, id, hold);
  }

  lemma FreshHoldAgrees(edited: State, id: nat, hold: Hold)
    requires id < |edited.sessions| && RowOk(edited.sessions[id], edited.children)
    requires edited.sessions[id].status == Confirmed && edited.sessions[id].checkoutAt.None?
    requires var care := edited.sessions[id];
      hold == Hold(id, care.requester, care.provider, care.Length(), Held, None)
    ensures HoldMatches(edited, hold) && HoldAgrees(edited.sessions[id], hold)
  {}

  lemma CreateHoldFloor(s: State, t: State, id: nat, hold: Hold)
    requires Books(s) && Floor(s) && id < |s.sessions| && s.sessions[id].Length() <= LONGEST_REQUEST
    requires s.sessions[id].checkoutAt.None? && FindHold(s.holds, id).None?
    requires BalanceOf(s.accounts, s.sessions[id].requester) > NEGATIVE_BALANCE_LIMIT
    requires t.holds == s.holds + [hold] && hold.session == id && hold.status == Held
    requires Moves(s, t, id, -s.sessions[id].Length(), 0, 0)
    ensures Floor(t)
  {
    var care, released, paid, gift := s.sessions[id], -s.sessions[id].Length(), 0, 0;
    forall j: nat | j < |s.sessions| ensures FallbackPaid(t, j) == FallbackPaid(s, j) {
      FindAfterAppend(s.holds, hold, j);
      assert Paid(t, j) == Paid(s, j);
    }
    assert MovesAccount(s, t, care.requester, care.provider, released, paid, gift, care.requester);
    MoveKeepsFloor(s, t, id, released, paid, gift, 0);
  }

  lemma ConfirmStep(s: State, id: nat)
    requires Inv(s) && id < |s.sessions| && s.sessions[id].status == Requested
    ensures Inv(CreateHold(Edit(s, id, s.sessions[id].(status := Confirmed)), id).state)
  {
    var care := s.sessions[id];
    var edited := Edit(s, id, care.(status := Confirmed));
    assert RowOk(care, s.children);
    HoldOfOpenSession(s, id);
    if BalanceOf(s.accounts, care.requester) <= NEGATIVE_BALANCE_LIMIT {
      EditStep(s, CreateHold(edited, id).state, id, care.requester);
    } else {
      CreateHoldStep(s, edited, id);
    }
  }

  lemma AcceptStep(s: State, id: SessionId, provider: UserId)
    requires Inv(s)
    ensures Inv(Accept(s, id, provider).state)
  {
    if ForProvider(s, id, provider, Requested) == Done && !HasPendingEvaluation(s, provider) {
      SideStep(s, Acquaint(s, id));
      ConfirmStep(Acquaint(s, id), id);
    }
  }

  // ------------------------------------------------------------------ reject, check in, check out

  lemma RejectStep(s: State, id: SessionId, provider: UserId)
    requires Inv(s)
    ensures Inv(Reject(s, id, provider).state)
  {
    if ForProvider(s, id, provider, Requested) == Done {
      assert RowOk(s.sessions[id], s.children);
      HoldOfOpenSession(s, id);
      EditStep(s, Reject(s, id, provider).state, id, provider);
    }
  }

  lemma CheckinStep(s: State, id: SessionId, provider: UserId, outOfRange: bool, hasReason: bool, now: int)
    requires Inv(s)
    ensures Inv(Checkin(s, id, provider, outOfRange, hasReason, now).state)
  {
    var result := Checkin(s, id, provider, outOfRange, hasReason, now);
    if result.reply == Done {
      assert RowOk(s.sessions[id], s.children);
      HoldOfOpenSession(s, id);
      EditStep(s, result.state, id, provider);
    }
  }

  /** Nothing refers to a session that has paid nothing. */
  lemma NotSettledYet(s: State, id: nat)
    requires ReferencedOnce(s) && id < |s.sessions| && Paid(s, id) == 0
    ensures !HasSettled(s.transactions, id)
  {
    CountNone(|s.transactions|, Referring(s.transactions, id));
    forall i | 0 <= i < |s.transactions| ensures !Refers(s.transactions[i], id) {
      assert !Referring(s.transactions, id)(i);
    }
  }

  lemma SettleNothing(s: State, edited: State, id: nat)
    requires Books(s) && Floor(s) && Edited(s, edited, id)
    requires s.sessions[id].checkoutAt.None? && FindHold(s.holds, id).None? && RawSlots(edited.sessions[id]) <= 0
    ensures Books(edited) && Floor(edited)
  {
    assert Stays(s, edited);
    StayKeepsBooks(s, edited);
    StayKeepsFloor(s, edited);
  }

  lemma SettleByTransfer(s: State, edited: State, id: nat, raw: int)
    requires HoldsMatch(s) && Books(s) && Floor(s) && Edited(s, edited, id)
    requires s.sessions[id].requester != s.sessions[id].provider
    requires s.sessions[id].checkoutAt.None? && edited.sessions[id].checkoutAt.Some?
    requires FindHold(s.holds, id).None? && raw == RawSlots(edited.sessions[id]) > 0
    ensures var t := Transfer(edited, s.sessions[id].requester, s.sessions[id].provider, raw, Settlement, id);
            Books(t) && Floor(t)
  {
    var t := Transfer(edited, s.sessions[id].requester, s.sessions[id].provider, raw, Settlement, id);
    TransferMoves(s, edited, id, raw);
    MoveKeepsBooks(s, t, id, 0, raw, 0);
    MoveKeepsFloor(s, t, id, 0, raw, 0, raw);
  }

  lemma SettleWithoutHold(s: State, edited: State, id: nat)
    requires Inv(s) && EditsRow(s, edited, id)
    requires s.sessions[id].checkoutAt.None? && edited.sessions[id].checkoutAt.Some? && FindHold(s.holds, id).None?
    ensures Inv(Settle(edited, id))
  {
    var t, raw := Settle(edited, id), RawSlots(edited.sessions[id]);
    assert RowOk(s.sessions[id], s.children);
    NotSettledYet(s, id);
    EditKeepsRecords(s, edited, id);
    NoHoldAgreement(edited, id);
    HoldsUntouched(edited, t);
    if raw <= 0 { SettleNothing(s, edited, id); } else { SettleByTransfer(s, edited, id, raw); }
  }

  lemma SettleFromHold(s: State, edited: State, id: nat)
    requires Inv(s) && EditsRow(s, edited, id) && s.sessions[id].status == Confirmed
    requires s.sessions[id].checkoutAt.None? && edited.sessions[id].checkoutAt.Some? && FindHold(s.holds, id).Some?
    requires edited.sessions[id].status == Confirmed
    ensures Inv(Settle(edited, id))
  {
    var k := FindHold(s.holds, id).value;
    assert RowOk(s.sessions[id], s.children) && HoldMatches(s, s.holds[k]);
    HoldOfOpenSession(s, id);
    NotSettledYet(s, id);
    var slots := Min(RawSlots(edited.sessions[id]), s.holds[k].amount);
    ResolveStep(s, edited, id, k, Settled, slots, if slots <= 0 then None else Some(Settlement),
                edited.sessions[id].checkoutAt);
  }

  lemma CheckoutStep(s: State, id: SessionId, provider: UserId, now: int)
    requires Inv(s)
    ensures Inv(Checkout(s, id, provider, now).state)
  {
    if Checkout(s, id, provider, now).reply == Done {
      var edited := Edit(s, id, CheckedOut(s.sessions[id], now));
      assert RowOk(s.sessions[id], s.children);
      if FindHold(s.holds, id).None? { SettleWithoutHold(s, edited, id); } else { SettleFromHold(s, edited, id); }
    }
  }

  // ------------------------------------------------------------------ cancel and no-show

  /** Cancelling or failing a confirmed session: its hold, if any, is released or forfeited. */
  lemma EndStep(s: State, edited: State, id: nat, forfeits: bool, reason: Reason)
    requires Inv(s) && EditsRow(s, edited, id)
    requires s.sessions[id].status == Confirmed && s.sessions[id].checkoutAt.None?
    requires edited.sessions[id].status in {Cancelled, NoShow}
    requires edited.sessions[id].checkoutAt.None? && edited.sessions[id].actualMinutes.None?
    requires forfeits <==> edited.sessions[id].atFault == Some(s.sessions[id].requester)
    ensures var found := FindHold(s.holds, id);
            Inv(if found.None? then edited
                else if forfeits then
                  Resolve(edited, found.value, Forfeited, s.holds[found.value].amount, Some(reason),
                          edited.sessions[id].cancelledAt)
                else Resolve(edited, found.value, Released, 0, None, edited.sessions[id].cancelledAt))
  {
    HoldOfOpenSession(s, id);
    assert RowOk(s.sessions[id], s.children);
    var found, at := FindHold(s.holds, id), edited.sessions[id].cancelledAt;
    if found.None? {
      EditStep(s, edited, id, s.sessions[id].requester);
    } else {
      assert HoldMatches(s, s.holds[found.value]);
      if forfeits {
        ResolveStep(s, edited, id, found.value, Forfeited, s.holds[found.value].amount, Some(reason), at);
      } else {
        ResolveStep(s, edited, id, found.value, Released, 0, None, at);
      }
    }
  }

  lemma CancelStep(s: State, id: SessionId, actor: UserId, now: int)
    requires Inv(s)
    ensures Inv(Cancel(s, id, actor, now).state)
  {
    if Cancel(s, id, actor, now).reply == Done {
      var care := s.sessions[id];
      var edited := Edit(s, id, CancelledBy(care, actor, now));
      assert RowOk(care, s.children);
      HoldOfOpenSession(s, id);
      if care.status == Confirmed {
        if FindHold(s.holds, id).Some? { assert HoldMatches(s, s.holds[FindHold(s.holds, id).value]); }
        EndStep(s, edited, id, PastDeadline(care, now) && actor == care.requester, CancelPenalty);
      } else {
        EditStep(s, edited, id, actor);
      }
    }
  }

  lemma ReportNoShowStep(s: State, id: SessionId, reporter: UserId, now: int)
    requires Inv(s)
    ensures Inv(ReportNoShow(s, id, reporter, now).state)
  {
    if ReportNoShow(s, id, reporter, now).reply == Done {
      var edited := Edit(s, id, FailedBy(s.sessions[id], reporter, now));
      assert RowOk(s.sessions[id], s.children);
      HoldOfOpenSession(s, id);
      EndStep(s, edited, id, reporter != s.sessions[id].requester, NoShowPenalty);
    }
  }
}
