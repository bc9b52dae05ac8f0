/** What every service call keeps, hence what holds after every run. */
module CareInvariants {
  import opened Prelude
  import opened ScheduleSlots
  import opened CareModel
  import opened CareBooks
  import WorkSchedule

  /** The longest request there can be, and what is left when it is held at the lowest balance that allows it. */
  const LONGEST_REQUEST := 30
  const LOWEST_BALANCE := NEGATIVE_BALANCE_LIMIT + 1 - LONGEST_REQUEST

  // ------------------------------------------------------------------ rows

  ghost predicate RowOk(care: CareSession, children: map<int, UserId>) {
    && 0 <= care.start < care.end <= SLOT_COUNT && care.Length() <= LONGEST_REQUEST
    && care.requester != care.provider
    && care.child in children && children[care.child] == care.requester
    && (care.checkinAt.Some? ==> care.status in {Confirmed, Cancelled})
    && (care.checkoutAt.Some? <==> care.actualMinutes.Some?)
    && (care.checkoutAt.Some? ==>
          && care.checkinAt.Some?
          && care.actualMinutes.value == (care.checkoutAt.value - care.checkinAt.value) / MINUTE)
    && (care.atFault.Some? ==> care.status in {Cancelled, NoShow} && care.Involves(care.atFault.value))
    && (care.status == NoShow ==> care.atFault.Some?)
    && (care.cancelledAt.Some? <==> care.status in {Cancelled, NoShow})
  }

  ghost predicate Rows(sessions: seq<CareSession>, children: map<int, UserId>) {
    forall i :: 0 <= i < |sessions| ==> RowOk(sessions[i], children)
  }

  /** Two active sessions that share a person and a slot. */
  predicate Clash(a: CareSession, b: CareSession) {
    && a.Active() && b.Active() && a.day == b.day && a.start < b.end && b.start < a.end
    && (a.Involves(b.requester) || a.Involves(b.provider))
  }

  ghost predicate Bookings(sessions: seq<CareSession>) {
    forall i, j :: 0 <= i < j < |sessions| ==> !Clash(sessions[i], sessions[j])
  }

  ghost predicate ReviewOk(sessions: seq<CareSession>, review: Evaluation) {
    && 1 <= review.rating <= 5 && 0 <= review.session < |sessions| && sessions[review.session].checkoutAt.Some?
    && sessions[review.session].Involves(review.evaluator) && sessions[review.session].Involves(review.evaluatee)
    && review.evaluator != review.evaluatee
  }

  ghost predicate Reviews(sessions: seq<CareSession>, reviews: seq<Evaluation>) {
    && (forall i :: 0 <= i < |reviews| ==> ReviewOk(sessions, reviews[i]))
    && (forall i, j :: 0 <= i < j < |reviews| ==>
          !(reviews[i].session == reviews[j].session && reviews[i].evaluator == reviews[j].evaluator))
  }

  // ------------------------------------------------------------------ holds and sessions

  /** The status of a session's hold follows from the session. */
  function HoldStatusFor(care: CareSession): HoldStatus {
    if care.checkoutAt.Some? then Settled
    else if care.status == Confirmed then Held
    else if care.atFault == Some(care.requester) then Forfeited
    else Released
  }

  /** When a session's hold was resolved: at the check-out, or else when the session ended. */
  function ResolvedAt(care: CareSession): Option<int> {
    if care.checkoutAt.Some? then care.checkoutAt else care.cancelledAt
  }

  ghost predicate HoldAgrees(care: CareSession, hold: Hold) {
    && care.status in {Confirmed, Cancelled, NoShow}
    && hold.status == HoldStatusFor(care) && hold.resolvedAt == ResolvedAt(care)
  }

  ghost predicate Agreement(s: State) {
    forall i :: 0 <= i < |s.holds| ==>
      0 <= s.holds[i].session < |s.sessions| && HoldAgrees(s.sessions[s.holds[i].session], s.holds[i])
  }

  ghost predicate AgreementBut(s: State, id: SessionId) {
    forall i :: 0 <= i < |s.holds| && s.holds[i].session != id ==>
      0 <= s.holds[i].session < |s.sessions| && HoldAgrees(s.sessions[s.holds[i].session], s.holds[i])
  }

  // ------------------------------------------------------------------ the balance floor

  /** What a session without a hold took from its requester. */
  function FallbackPaid(s: State, id: nat): int {
    if FindHold(s.holds, id).None? then Paid(s, id) else 0
  }

  function FallbackTerms(s: State, user: UserId): nat -> int {
    (id: nat) => if id < |s.sessions| && s.sessions[id].requester == user then FallbackPaid(s, id) else 0
  }

  function Fallback(s: State, user: UserId): int { Sum(|s.sessions|, FallbackTerms(s, user)) }

  ghost predicate AboveFloor(s: State, user: UserId) {
    BalanceOf(s.accounts, user) + Fallback(s, user) >= LOWEST_BALANCE
  }

  ghost predicate Floor(s: State) { forall user :: AboveFloor(s, user) }

  // ------------------------------------------------------------------ the invariant

  ghost predicate Records(s: State) {
    && Rows(s.sessions, s.children)
    && Bookings(s.sessions)
    && Reviews(s.sessions, s.evaluations)
    && WorkSchedule.AllShaped(s.schedules)
    && HoldsMatch(s)
    && Agreement(s)
  }

  ghost predicate Inv(s: State) {
    Records(s) && Books(s) && Floor(s)
  }

  // ------------------------------------------------------------------ edits of session rows

  /** Row id is replaced by an acceptable one that is active only if the old one was and stays checked out. */
  ghost predicate EditsRow(s: State, t: State, id: nat) {
    && Edited(s, t, id)
    && t.sessions[id].day == s.sessions[id].day && t.sessions[id].child == s.sessions[id].child
    && (t.sessions[id].Active() ==> s.sessions[id].Active())
    && (s.sessions[id].checkoutAt.Some? ==> t.sessions[id].checkoutAt.Some?)
    && RowOk(t.sessions[id], s.children)
  }

  lemma EditKeepsRecords(s: State, t: State, id: nat)
    requires Records(s) && EditsRow(s, t, id)
    ensures Rows(t.sessions, t.children) && Bookings(t.sessions) && Reviews(t.sessions, t.evaluations)
    ensures HoldsMatch(t) && AgreementBut(t, id)
  {
    forall i, j | 0 <= i < j < |t.sessions| ensures !Clash(t.sessions[i], t.sessions[j]) {
      assert !Clash(s.sessions[i], s.sessions[j]);
    }
    forall i | 0 <= i < |t.evaluations| ensures ReviewOk(t.sessions, t.evaluations[i]) {
      assert ReviewOk(s.sessions, s.evaluations[i]);
    }
    forall i | 0 <= i < |t.holds| ensures HoldMatches(t, t.holds[i]) { assert HoldMatches(s, s.holds[i]); }
  }

  /** Ending the session's hold restores the agreement of all holds with all sessions. */
  lemma ResolveKeepsHolds(edited: State, k: nat, status: HoldStatus, paid: int, reason: Option<Reason>, at: Option<int>)
    requires HoldsMatch(edited) && k < |edited.holds| && AgreementBut(edited, edited.holds[k].session)
    requires HoldMatches(edited, edited.holds[k])
      ==> HoldAgrees(edited.sessions[edited.holds[k].session], edited.holds[k].(status := status, resolvedAt := at))
    ensures var t := Resolve(edited, k, status, paid, reason, at); HoldsMatch(t) && Agreement(t)
  {
    var t := Resolve(edited, k, status, paid, reason, at);
    forall i | 0 <= i < |t.holds|
      ensures HoldMatches(t, t.holds[i]) && HoldAgrees(t.sessions[t.holds[i].session], t.holds[i])
    {
      assert HoldMatches(edited, edited.holds[i]);
    }
  }

  lemma NoHoldAgreement(s: State, id: SessionId)
    requires HoldsMatch(s) && AgreementBut(s, id)
    requires FindHold(s.holds, id).None?
      || (FindHold(s.holds, id).value < |s.holds| && 0 <= id < |s.sessions|
          && HoldAgrees(s.sessions[id], s.holds[FindHold(s.holds, id).value]))
    ensures Agreement(s)
  {
    forall i | 0 <= i < |s.holds|
      ensures 0 <= s.holds[i].session < |s.sessions| && HoldAgrees(s.sessions[s.holds[i].session], s.holds[i])
    {
      HoldFound(s, i);
    }
  }

  // ------------------------------------------------------------------ the floor under moves

  lemma MoveKeepsFloor(s: State, t: State, id: nat, released: int, paid: int, gift: int, fallback: int)
    requires Books(s) && Floor(s) && Moves(s, t, id, released, paid, gift)
    requires forall j: nat :: j < |s.sessions| ==>
      FallbackPaid(t, j) == FallbackPaid(s, j) + if j == id then fallback else 0
    requires released - paid + gift + fallback >= 0
          || (fallback == 0 && BalanceOf(t.accounts, s.sessions[id].requester) >= LOWEST_BALANCE)
    ensures Floor(t)
  {
    forall user ensures AboveFloor(t, user) {
      assert AboveFloor(s, user);
      assert MovesAccount(s, t, s.sessions[id].requester, s.sessions[id].provider, released, paid, gift, user);
      SumDelta(|s.sessions|, FallbackTerms(s, user), FallbackTerms(t, user), id);
      forall j: nat | j < |s.sessions| ensures FallbackTerms(s, user)(j) >= 0 { assert Paid(s, j) >= 0; }
      SumLower(|s.sessions|, FallbackTerms(s, user));
    }
  }

  lemma StayKeepsFloor(s: State, t: State)
    requires Floor(s) && Stays(s, t)
    ensures Floor(t)
  {
    forall user ensures AboveFloor(t, user) {
      assert AboveFloor(s, user);
      SumSame(|s.sessions|, FallbackTerms(s, user), FallbackTerms(t, user));
    }
  }
}
