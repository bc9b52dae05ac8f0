/** Emergency suspension: sessions are stopped in one pass and their holds released in a second one. */
module CareSuspend {
  import opened Prelude
  import opened CareModel
  import opened CareBooks
  import opened CareInvariants
  import opened CareSteps

  lemma {:induction false} StoppedContents(sessions: seq<CareSession>, ids: seq<SessionId>, id: SessionId,
                                           confirmed: bool)
    requires Listing(sessions, ids)
    ensures (id, confirmed) in Stopped(sessions, ids)
       <==> id in ids && sessions[id].Active() && confirmed == (sessions[id].status == Confirmed)
  {
    if ids == [] {
    } else {
      StoppedContents(sessions, ids[..|ids| - 1], id, confirmed);
    }
  }

  /** Hold i after the second pass. */
  function ReleasedIf(s: State, stopped: seq<(SessionId, bool)>, i: nat): Hold
    requires HoldsMatchIds(s) && i < |s.holds|
  {
    var hold := s.holds[i];
    if hold.status == Held && (hold.session, true) in stopped then
      hold.(status := Released, resolvedAt := s.sessions[hold.session].cancelledAt)
    else hold
  }

  predicate HoldsMatchIds(s: State) { forall i :: 0 <= i < |s.holds| ==> 0 <= s.holds[i].session < |s.sessions| }

  ghost predicate Releasable(s: State, stopped: seq<(SessionId, bool)>) {
    && (forall a :: 0 <= a < |stopped| ==> 0 <= stopped[a].0 < |s.sessions|)
    && (forall i :: 0 <= i < |s.sessions| ==> s.sessions[i].requester != s.sessions[i].provider)
    && HoldsMatch(s) && HoldsMatchIds(s)
    && (forall i :: 0 <= i < |s.holds| && s.holds[i].status == Held ==> s.sessions[s.holds[i].session].checkoutAt.None?)
  }

  ghost predicate HoldsReleased(s: State, t: State, stopped: seq<(SessionId, bool)>)
    requires HoldsMatchIds(s)
  {
    && t == s.(accounts := t.accounts, holds := t.holds) && |t.holds| == |s.holds|
    && forall i: nat :: i < |s.holds| ==> t.holds[i] == ReleasedIf(s, stopped, i)
  }

  lemma ReleaseLive(s: State, id: nat, k: nat)
    requires Releasable(s, []) && Books(s) && Floor(s) && id < |s.sessions|
    requires k < |s.holds| && s.holds[k].session == id && s.holds[k].status == Held
    ensures var t := Resolve(s, k, Released, 0, None, s.sessions[id].cancelledAt); HoldsMatch(t) && Books(t) && Floor(t)
  {
    var at := s.sessions[id].cancelledAt;
    var t := Resolve(s, k, Released, 0, None, at);
    assert HoldMatches(s, s.holds[k]);
    ResolveMoves(s, s, id, k, Released, 0, None, at);
    MoveKeepsBooks(s, t, id, s.holds[k].amount, 0, 0);
    ResolveKeepsFloor(s, s, id, k, Released, 0, None, at);
    forall i | 0 <= i < |t.holds| ensures HoldMatches(t, t.holds[i]) { assert HoldMatches(s, s.holds[i]); }
  }

  lemma ReleaseChanges(s: State, id: nat)
    requires Releasable(s, []) && id < |s.sessions|
    ensures HoldsReleased(s, ResolveOnCancel(s, id, false), [(id, true)])
  {
    var found := FindHold(s.holds, id);
    forall i | 0 <= i < |s.holds| && s.holds[i].session == id ensures found == Some(i) { HoldFound(s, i); }
  }

  lemma ReleaseOne(s: State, id: nat)
    requires Releasable(s, []) && Books(s) && Floor(s) && id < |s.sessions|
    ensures var t := ResolveOnCancel(s, id, false);
            Releasable(t, []) && Books(t) && Floor(t) && HoldsReleased(s, t, [(id, true)])
  {
    var found := FindHold(s.holds, id);
    ReleaseChanges(s, id);
    if found.Some? && s.holds[found.value].status == Held { ReleaseLive(s, id, found.value); }
  }

  lemma {:induction false} ReleaseAll(s: State, stopped: seq<(SessionId, bool)>)
    requires Releasable(s, stopped) && Books(s) && Floor(s)
    ensures var t := ReleaseStopped(s, stopped);
            Releasable(t, stopped) && Books(t) && Floor(t) && HoldsReleased(s, t, stopped)
  {
    if stopped == [] {
    } else {
      var rest, last := stopped[..|stopped| - 1], stopped[|stopped| - 1];
      var between := ReleaseStopped(s, rest);
      ReleaseAll(s, rest);
      assert stopped == rest + [last];
      if last.1 {
        assert last == (last.0, true);
        ReleaseOne(between, last.0);
        ReleasedTwice(s, between, ReleaseStopped(s, stopped), rest, last.0);
      }
    }
  }

  lemma ReleasedTwice(s: State, between: State, t: State, rest: seq<(SessionId, bool)>, id: SessionId)
    requires HoldsMatchIds(s) && HoldsMatchIds(between)
    requires HoldsReleased(s, between, rest) && HoldsReleased(between, t, [(id, true)])
    ensures HoldsReleased(s, t, rest + [(id, true)])
  {
    forall i: nat | i < |s.holds| ensures t.holds[i] == ReleasedIf(s, rest + [(id, true)], i) {
      assert between.holds[i] == ReleasedIf(s, rest, i);
      assert t.holds[i] == ReleasedIf(between, [(id, true)], i);
    }
  }

  // ------------------------------------------------------------------ the whole call

  function StopPass(s: State, target: UserId, now: int): State { s.(sessions := StopAll(s.sessions, target, now)) }

  lemma StopKeeps(s: State, target: UserId, now: int)
    requires Inv(s)
    ensures var t := StopPass(s, target, now);
            Rows(t.sessions, t.children) && Bookings(t.sessions) && Reviews(t.sessions, t.evaluations)
    ensures var t := StopPass(s, target, now); Books(t) && Floor(t) && Releasable(t, [])
  {
    var t := StopPass(s, target, now);
    forall i | 0 <= i < |t.sessions| ensures RowOk(t.sessions[i], t.children) {
      assert RowOk(s.sessions[i], s.children);
    }
    forall i, j | 0 <= i < j < |t.sessions| ensures !Clash(t.sessions[i], t.sessions[j]) {
      assert !Clash(s.sessions[i], s.sessions[j]);
    }
    forall i | 0 <= i < |t.evaluations| ensures ReviewOk(t.sessions, t.evaluations[i]) {
      assert ReviewOk(s.sessions, s.evaluations[i]);
    }
    forall i | 0 <= i < |t.holds| ensures HoldMatches(t, t.holds[i]) { assert HoldMatches(s, s.holds[i]); }
    EditsStay(s, t, target);
    StayKeepsBooks(s, t);
    StayKeepsFloor(s, t);
  }

  function Listed(s: State, target: UserId): seq<(SessionId, bool)> {
    Stopped(s.sessions, ListForUser(s.sessions, target, |s.sessions|))
  }

  /** A live hold is released exactly when the target is a party to its session. */
  lemma ReleasedExactly(s: State, target: UserId, now: int, i: nat)
    requires Inv(s) && i < |s.holds|
    ensures HoldsMatchIds(s) && HoldsMatchIds(StopPass(s, target, now))
    ensures var hold := s.holds[i];
            ReleasedIf(StopPass(s, target, now), Listed(s, target), i) ==
            if hold.status == Held && s.sessions[hold.session].Involves(target)
            then hold.(status := Released, resolvedAt := Some(now)) else hold
  {
    forall j | 0 <= j < |s.holds| ensures 0 <= s.holds[j].session < |s.sessions| {
      assert HoldMatches(s, s.holds[j]);
    }
    var ids := ListForUser(s.sessions, target, |s.sessions|);
    StoppedContents(s.sessions, ids, s.holds[i].session, true);
    assert HoldAgrees(s.sessions[s.holds[i].session], s.holds[i]);
  }

  lemma SuspendAgreement(s: State, t: State, target: UserId, now: int)
    requires Inv(s) && HoldsMatchIds(StopPass(s, target, now))
    requires HoldsReleased(StopPass(s, target, now), t, Listed(s, target))
    ensures Agreement(t)
  {
    forall i: nat | i < |t.holds|
      ensures 0 <= t.holds[i].session < |t.sessions| && HoldAgrees(t.sessions[t.holds[i].session], t.holds[i])
    {
      ReleasedExactly(s, target, now, i);
      assert t.holds[i] == ReleasedIf(StopPass(s, target, now), Listed(s, target), i);
      var care := s.sessions[s.holds[i].session];
      assert HoldMatches(s, s.holds[i]) && HoldAgrees(care, s.holds[i]) && RowOk(care, s.children);
    }
  }

  lemma SuspendResult(s: State, target: UserId, now: int)
    requires Inv(s)
    ensures var t := StopSessions(s, target, now);
            Inv(t) && HoldsMatchIds(StopPass(s, target, now))
            && HoldsReleased(StopPass(s, target, now), t, Listed(s, target))
  {
    var stopped := StopPass(s, target, now);
    StopKeeps(s, target, now);
    StoppedInRange(s.sessions, ListForUser(s.sessions, target, |s.sessions|));
    ReleaseAll(stopped, Listed(s, target));
    SuspendAgreement(s, ReleaseStopped(stopped, Listed(s, target)), target, now);
  }

  lemma SuspendStep(s: State, byAdmin: bool, target: UserId, targetExists: bool, now: int)
    requires Inv(s)
    ensures Inv(EmergencySuspend(s, byAdmin, target, targetExists, now).state)
  {
    SideStep(s, Ban(s, target));
    SuspendResult(Ban(s, target), target, now);
  }

  /** Held points of a payer on sessions of the suspended user. */
  function RefundTerms(s: State, target: UserId, payer: UserId): nat -> int {
    (i: nat) =>
      if i < |s.holds| && s.holds[i].status == Held && s.holds[i].payer == payer
         && target in {payer, s.holds[i].payee}
      then s.holds[i].amount else 0
  }

  function Refund(s: State, target: UserId, payer: UserId): int { Sum(|s.holds|, RefundTerms(s, target, payer)) }

  /** The target's active sessions are cancelled and the live holds on its sessions released; all other rows stay. */
  ghost predicate RowsEnded(s: State, t: State, target: UserId, now: int) {
    && |t.sessions| == |s.sessions| && |t.holds| == |s.holds|
    && (forall i :: 0 <= i < |t.sessions| ==>
          t.sessions[i] == if s.sessions[i].status in {Requested, Confirmed}
                              && target in {s.sessions[i].requester, s.sessions[i].provider}
                           then s.sessions[i].(status := Cancelled, cancelledAt := Some(now)) else s.sessions[i])
    && (forall i :: 0 <= i < |t.holds| ==>
          0 <= s.holds[i].session < |s.sessions|
          && t.holds[i] == if s.holds[i].status == Held && target in {s.holds[i].payer, s.holds[i].payee}
                           then s.holds[i].(status := Released, resolvedAt := Some(now)) else s.holds[i])
  }

  /** Nothing of the target's is held, and every payer has got back exactly what was held on the target's sessions. */
  ghost predicate Refunded(s: State, t: State, target: UserId) {
    && HeldOf(t.accounts, target) == 0
    && forall payer ::
         && BalanceOf(t.accounts, payer) == BalanceOf(s.accounts, payer) + Refund(s, target, payer)
         && HeldOf(t.accounts, payer) == HeldOf(s.accounts, payer) - Refund(s, target, payer)
  }

  /** What the two loops do together. */
  lemma SuspendEndsEverything(s: State, target: UserId, now: int)
    requires Inv(s)
    ensures var t := StopSessions(s, target, now);
      && RowsEnded(s, t, target, now) && Refunded(s, t, target)
      && t == s.(sessions := t.sessions, holds := t.holds, accounts := t.accounts)
  {
    var t := StopSessions(s, target, now);
    SuspendResult(s, target, now);
    forall i: nat | i < |s.holds|
      ensures 0 <= s.holds[i].session < |s.sessions|
      ensures t.holds[i] == if s.holds[i].status == Held && s.sessions[s.holds[i].session].Involves(target)
                            then s.holds[i].(status := Released, resolvedAt := Some(now)) else s.holds[i]
    {
      ReleasedExactly(s, target, now, i);
      assert t.holds[i] == ReleasedIf(StopPass(s, target, now), Listed(s, target), i);
    }
    RowsEndedRefund(s, t, target, now);
  }

  lemma RowsEndedRefund(s: State, t: State, target: UserId, now: int)
    requires HoldsMatch(s) && Books(s) && Books(t) && RowsEnded(s, t, target, now) && t.entries == s.entries
    ensures Refunded(s, t, target)
  {
    forall payer
      ensures BalanceOf(t.accounts, payer) == BalanceOf(s.accounts, payer) + Refund(s, target, payer)
      ensures HeldOf(t.accounts, payer) == HeldOf(s.accounts, payer) - Refund(s, target, payer)
    {
      assert AccountAgrees(s, payer) && AccountAgrees(t, payer);
      WindfallsStay(s, t, payer);
      SumAdd(|s.holds|, HeldTerms(t.holds, payer), RefundTerms(s, target, payer), HeldTerms(s.holds, payer));
    }
    NothingHeld(s, t, target);
  }

  lemma BanChangesNoRefund(s: State, t: State, target: UserId)
    ensures Refunded(Ban(s, target), t, target) <==> Refunded(s, t, target)
  {
    forall payer ensures Refund(Ban(s, target), target, payer) == Refund(s, target, payer) {
      SumSame(|s.holds|, RefundTerms(Ban(s, target), target, payer), RefundTerms(s, target, payer));
    }
  }

  /** Marking the target first makes no difference to what the two loops do. */
  lemma BanChangesMarks(s: State, banned: State, t: State, target: UserId, now: int)
    requires banned == Ban(s, target) && RowsEnded(banned, t, target, now) && Refunded(banned, t, target)
    requires t == banned.(sessions := t.sessions, holds := t.holds, accounts := t.accounts)
    ensures RowsEnded(s, t, target, now) && Refunded(s, t, target)
    ensures t == s.(sessions := t.sessions, holds := t.holds, accounts := t.accounts,
                    sanctioned := s.sanctioned + {target}, inactive := s.inactive + {target})
  {
    BanChangesNoRefund(s, t, target);
  }

  lemma WindfallsStay(s: State, t: State, user: UserId)
    requires |t.sessions| == |s.sessions| && |t.holds| == |s.holds|
    requires forall i :: 0 <= i < |t.holds| ==> t.holds[i].session == s.holds[i].session
    requires forall i :: 0 <= i < |t.sessions| ==>
      && t.sessions[i].requester == s.sessions[i].requester && t.sessions[i].checkoutAt == s.sessions[i].checkoutAt
      && t.sessions[i].actualMinutes == s.sessions[i].actualMinutes
    ensures Windfalls(t, user) == Windfalls(s, user)
  {
    forall id: nat | id < |s.sessions| ensures WindfallTerms(t, user)(id) == WindfallTerms(s, user)(id) {
      assert t.sessions[id].requester == s.sessions[id].requester;
      assert FindHold(t.holds, id).Some? <==> FindHold(s.holds, id).Some?;
    }
    SumSame(|s.sessions|, WindfallTerms(t, user), WindfallTerms(s, user));
  }

  lemma NothingHeld(s: State, t: State, target: UserId)
    requires Books(t) && HoldsMatch(s) && |t.holds| == |s.holds|
    requires forall i :: 0 <= i < |t.holds| ==>
      && 0 <= s.holds[i].session < |s.sessions| && t.holds[i].payer == s.holds[i].payer
      && (t.holds[i].status == Held ==> !s.sessions[s.holds[i].session].Involves(target))
    ensures HeldOf(t.accounts, target) == 0
  {
    assert AccountAgrees(t, target);
    forall i: nat | i < |t.holds| ensures HeldTerms(t.holds, target)(i) == 0 { assert HoldMatches(s, s.holds[i]); }
    SumZero(|t.holds|, HeldTerms(t.holds, target));
  }
}
