/** What holds after every run of service calls, whoever makes them and in whatever order. */
module CareRuns {
  import opened Prelude
  import opened ScheduleSlots
  import opened CareModel
  import opened CareBooks
  import opened CareInvariants
  import opened CareSteps
  import opened CareSuspend
  import TrustModel
  import WorkSchedule

  // ------------------------------------------------------------------ every step, every run

  lemma SubmitEvaluationStep(s: State, id: SessionId, evaluator: UserId, rating: int)
    requires Inv(s)
    ensures Inv(SubmitEvaluation(s, id, evaluator, rating).state)
  {
    var t := SubmitEvaluation(s, id, evaluator, rating).state;
    if t.evaluations != s.evaluations { assert RowOk(s.sessions[id], s.children); }
    SideStep(s, t);
  }

  lemma WriteLogStep(s: State, id: SessionId, provider: UserId, allergyNoteMissing: bool)
    requires Inv(s)
    ensures Inv(WriteLog(s, id, provider, allergyNoteMissing).state)
  {
    SideStep(s, WriteLog(s, id, provider, allergyNoteMissing).state);
  }

  lemma RegisterShiftStep(s: State, shift: WorkSchedule.Shift)
    requires Inv(s)
    ensures Inv(RegisterShift(s, shift).state)
  {
    WorkSchedule.RegisterKeepsShapes(s.schedules, shift);
    SideStep(s, RegisterShift(s, shift).state);
  }

  lemma TrustStep(s: State, call: TrustModel.Call)
    requires Inv(s)
    ensures Inv(Trust(s, call).state)
  {
    SideStep(s, Trust(s, call).state);
  }

  lemma ReadBalanceStep(s: State, user: UserId)
    requires Inv(s)
    ensures Inv(ReadBalance(s, user).state)
  {
    TouchStep(s, user);
  }

  /** Calls on care sessions, as opposed to the tables beside them. */
  predicate IsSessionCall(call: Call) {
    || call.CallCreateRequest? || call.CallAccept? || call.CallReject? || call.CallCheckin? || call.CallCheckout?
    || call.CallCancel? || call.CallReportNoShow? || call.CallEmergencySuspend?
  }

  lemma SessionCallKeeps(s: State, call: Call, now: int, result: Result)
    requires Inv(s) && IsSessionCall(call) && result == Step(s, call, now)
    ensures Inv(result.state)
  {
    match call
    case CallCreateRequest(r, p, c, d, st, e, isSolo) => CreateRequestStep(s, r, p, c, d, st, e, isSolo);
    case CallAccept(id, actor) => AcceptStep(s, id, actor);
    case CallReject(id, actor) => RejectStep(s, id, actor);
    case CallCheckin(id, actor, far, reason) => CheckinStep(s, id, actor, far, reason, now);
    case CallCheckout(id, actor) => CheckoutStep(s, id, actor, now);
    case CallCancel(id, actor) => CancelStep(s, id, actor, now);
    case CallReportNoShow(id, actor) => ReportNoShowStep(s, id, actor, now);
    case CallEmergencySuspend(byAdmin, target, targetExists) => SuspendStep(s, byAdmin, target, targetExists, now);
  }

  lemma SideCallKeeps(s: State, call: Call, now: int, result: Result)
    requires Inv(s) && !IsSessionCall(call) && result == Step(s, call, now)
    ensures Inv(result.state)
  {
    match call
    case CallSubmitEvaluation(id, actor, rating) => SubmitEvaluationStep(s, id, actor, rating);
    case CallWriteLog(id, actor, missing) => WriteLogStep(s, id, actor, missing);
    case CallRegisterShift(shift) => RegisterShiftStep(s, shift);
    case CallReadBalance(user) => ReadBalanceStep(s, user);
    case CallTrust(trustCall) => TrustStep(s, trustCall);
  }

  lemma StepKeeps(s: State, call: Call, now: int)
    requires Inv(s)
    ensures Inv(Step(s, call, now).state)
  {
    if IsSessionCall(call) {
      SessionCallKeeps(s, call, now, Step(s, call, now));
    } else {
      SideCallKeeps(s, call, now, Step(s, call, now));
    }
  }

  lemma InitialInv(children: map<int, UserId>)
    ensures Inv(Initial(children))
  {}

  lemma {:induction false} RunKeeps(children: map<int, UserId>, calls: seq<Timed>)
    ensures Inv(Run(children, calls))
  {
    if calls == [] {
      InitialInv(children);
    } else {
      var rest, last := calls[..|calls| - 1], calls[|calls| - 1];
      RunKeeps(children, rest);
      StepKeeps(Run(children, rest), last.call, last.now);
    }
  }

  ghost predicate Reached(s: State, children: map<int, UserId>, calls: seq<Timed>) {
    s == Run(children, calls)
  }

  lemma ReachedInv(s: State, children: map<int, UserId>, calls: seq<Timed>)
    requires Reached(s, children, calls)
    ensures Inv(s)
  {
    RunKeeps(children, calls);
  }

  // ------------------------------------------------------------------ points

  /**
   * Every user's points are the seed plus what their sessions moved, which is also what the ledger says, plus
   * windfalls; and what is held is what their live holds reserve. No assumption on the clock.
   */
  lemma PointsClosedForm(s: State, children: map<int, UserId>, calls: seq<Timed>, user: UserId)
    requires Reached(s, children, calls)
    ensures BalanceOf(s.accounts, user) + HeldOf(s.accounts, user) == 12 + Flow(s, user) + Windfalls(s, user)
    ensures EntrySum(s.entries, user) == Flow(s, user)
    ensures HeldOf(s.accounts, user) == HeldSum(s.holds, user)
  {
    ReachedInv(s, children, calls);
    assert AccountAgrees(s, user);
  }

  /** Entry sums over a set of users, entry by entry. */
  ghost function EntriesOf(users: set<UserId>, entries: seq<Entry>): int
  {
    if entries == [] then 0
    else
      var last := entries[|entries| - 1];
      EntriesOf(users, entries[..|entries| - 1]) + if last.user in users then last.amount else 0
  }

  lemma {:induction false} EntriesWithout(users: set<UserId>, entries: seq<Entry>, user: UserId)
    requires user in users
    ensures EntriesOf(users, entries) == EntriesOf(users - {user}, entries) + EntrySum(entries, user)
  {
    if entries == [] {
    } else {
      var n := |entries| - 1;
      EntriesWithout(users, entries[..n], user);
      SumSame(n, EntryTerms(entries[..n], user), EntryTerms(entries, user));
    }
  }

  lemma {:induction false} NoUsersNoEntries(entries: seq<Entry>)
    ensures EntriesOf({}, entries) == 0
  {
    if entries == [] {
    } else {
      NoUsersNoEntries(entries[..|entries| - 1]);
    }
  }

  lemma NoWindfalls(s: State, user: UserId)
    ensures Windfalls(s, user) >= 0
    ensures Windfalls(s, user) == 0 <==>
      forall id: nat :: id < |s.sessions| && s.sessions[id].requester == user ==> Windfall(s, id) == 0
  {
    SumIsZero(|s.sessions|, WindfallTerms(s, user));
    forall id: nat | id < |s.sessions| && s.sessions[id].requester == user
      ensures WindfallTerms(s, user)(id) == Windfall(s, id) {}
  }

  function WindfallTermsOf(s: State, users: set<UserId>): nat -> int {
    (id: nat) => if id < |s.sessions| && s.sessions[id].requester in users then Windfall(s, id) else 0
  }

  /** Together the users hold their seeds, what the ledger says of them, and their windfalls. */
  lemma {:induction false} TotalOverSeed(s: State, users: set<UserId>)
    requires forall user :: AccountAgrees(s, user)
    ensures Total(users, s.accounts)
         == SEED_POINTS * |users| + EntriesOf(users, s.entries) + Sum(|s.sessions|, WindfallTermsOf(s, users))
    decreases |users|
  {
    if users == {} {
      NoUsersNoEntries(s.entries);
      SumZero(|s.sessions|, WindfallTermsOf(s, users));
    } else {
      var user := Pick(users);
      TotalOverSeed(s, users - {user});
      EntriesWithout(users, s.entries, user);
      SumAdd(|s.sessions|, WindfallTermsOf(s, users - {user}), WindfallTerms(s, user), WindfallTermsOf(s, users));
      assert AccountAgrees(s, user);
    }
  }

  lemma {:induction false} MirroredEntriesCancel(s: State, users: set<UserId>, k: nat)
    requires DoubleEntry(s) && k <= |s.transactions|
    requires forall i :: 0 <= i < |s.entries| ==> s.entries[i].user in users
    ensures EntriesOf(users, s.entries[..2 * k]) == 0
  {
    if k == 0 {
    } else {
      var n := 2 * k;
      MirroredEntriesCancel(s, users, k - 1);
      assert Mirrored(s, k - 1);
      assert s.entries[..n][..n - 1] == s.entries[..n - 1];
      assert s.entries[..n - 1][..n - 2] == s.entries[..n - 2];
    }
  }

  /** Settled out of a hold, for the time from check-in to check-out. */
  predicate SettledFromHold(s: State, id: nat) {
    && id < |s.sessions| && s.sessions[id].checkinAt.Some? && s.sessions[id].checkoutAt.Some?
    && FindHold(s.holds, id).Some?
  }

  lemma WindfallMeans(s: State, id: nat)
    requires Rows(s.sessions, s.children)
    ensures Windfall(s, id) == 0 <==>
      SettledFromHold(s, id) ==> s.sessions[id].checkinAt.value <= s.sessions[id].checkoutAt.value
  {
    if SettledFromHold(s, id) { assert RowOk(s.sessions[id], s.children); }
    if id < |s.sessions| { assert RowOk(s.sessions[id], s.children); }
  }

  /** Only users who appear in the ledger, hence have an account, can have points beyond the seed. */
  lemma WindfallHasAccount(s: State, user: UserId)
    requires Books(s) && user !in s.accounts
    ensures Windfalls(s, user) == 0
  {
    assert AccountAgrees(s, user);
    SumZero(|s.entries|, EntryTerms(s.entries, user));
  }

  function AllWindfalls(s: State): nat -> int { (id: nat) => Windfall(s, id) }

  lemma WindfallsHaveAccounts(s: State)
    requires Books(s)
    ensures Sum(|s.sessions|, WindfallTermsOf(s, s.accounts.Keys)) == Sum(|s.sessions|, AllWindfalls(s))
  {
    forall id: nat | id < |s.sessions| ensures WindfallTermsOf(s, s.accounts.Keys)(id) == AllWindfalls(s)(id) {
      var user := s.sessions[id].requester;
      if user !in s.accounts {
        WindfallHasAccount(s, user);
        NoWindfalls(s, user);
      }
    }
    SumSame(|s.sessions|, WindfallTermsOf(s, s.accounts.Keys), AllWindfalls(s));
  }

  /**
   * All accounts together hold the seed once per account and the windfalls. That is the seed alone if and only if no
   * session with a hold was checked out before it was checked in.
   */
  lemma PointsConserved(s: State, children: map<int, UserId>, calls: seq<Timed>)
    requires Reached(s, children, calls)
    ensures Total(s.accounts.Keys, s.accounts) == SEED_POINTS * |s.accounts| + Sum(|s.sessions|, AllWindfalls(s))
    ensures Total(s.accounts.Keys, s.accounts) >= SEED_POINTS * |s.accounts|
    ensures Total(s.accounts.Keys, s.accounts) == SEED_POINTS * |s.accounts| <==>
      forall id: nat :: SettledFromHold(s, id) ==> s.sessions[id].checkinAt.value <= s.sessions[id].checkoutAt.value
  {
    ReachedInv(s, children, calls);
    TotalOverSeed(s, s.accounts.Keys);
    WindfallsHaveAccounts(s);
    MirroredEntriesCancel(s, s.accounts.Keys, |s.transactions|);
    assert s.entries[..2 * |s.transactions|] == s.entries;
    forall id: nat { WindfallMeans(s, id); }
    SumIsZero(|s.sessions|, AllWindfalls(s));
    assert forall id: nat :: AllWindfalls(s)(id) == Windfall(s, id);
  }

  /** Entries 2k and 2k + 1 record transaction k: a debit and the equal credit of the counterparty. */
  predicate TwoSided(entries: seq<Entry>, k: nat) {
    && 2 * k + 1 < |entries|
    && var debit, credit := entries[2 * k], entries[2 * k + 1];
       && debit.transaction == credit.transaction == k && debit.amount == -credit.amount < 0
       && debit.user == credit.counterparty && credit.user == debit.counterparty && debit.user != credit.user
  }

  /** Each transaction has its two mirrored entries, and no session is ever the subject of two transactions. */
  lemma LedgerIsDoubleEntry(s: State, children: map<int, UserId>, calls: seq<Timed>)
    requires Reached(s, children, calls)
    ensures |s.entries| == 2 * |s.transactions|
    ensures forall k :: 0 <= k < |s.transactions| ==> TwoSided(s.entries, k)
    ensures forall i, j :: 0 <= i < j < |s.transactions| ==> s.transactions[i].reference != s.transactions[j].reference
  {
    ReachedInv(s, children, calls);
    forall k | 0 <= k < |s.transactions|
      ensures TwoSided(s.entries, k)
    {
      assert Mirrored(s, k);
      assert RowOk(s.sessions[s.transactions[k].reference.value], s.children);
    }
    forall i, j | 0 <= i < j < |s.transactions|
      ensures s.transactions[i].reference != s.transactions[j].reference
    {
      assert Mirrored(s, i) && Mirrored(s, j);
      if s.transactions[i].reference == s.transactions[j].reference {
        TwoReferences(s.transactions, s.transactions[i].reference.value, i, j);
        assert false;
      }
    }
  }

  lemma {:induction false} CountAtLeast(n: nat, p: nat -> bool, i: nat, j: nat)
    requires i < j < n && p(i) && p(j)
    ensures Count(n, p) >= 2
  {
    if n - 1 > j {
      CountAtLeast(n - 1, p, i, j);
    } else {
      CountNone(n - 1, p);
    }
  }

  lemma TwoReferences(transactions: seq<Transaction>, id: SessionId, i: nat, j: nat)
    requires i < j < |transactions| && Refers(transactions[i], id) && Refers(transactions[j], id)
    ensures References(transactions, id) >= 2
  {
    CountAtLeast(|transactions|, Referring(transactions, id), i, j);
  }

  predicate HasLiveHold(s: State, id: nat) {
    FindHold(s.holds, id).Some? && s.holds[FindHold(s.holds, id).value].status == Held
  }

  lemma SettleWithoutLiveHold(s: State, id: nat)
    requires Inv(s) && id < |s.sessions| && !HasLiveHold(s, id)
    ensures Settle(s, id) == s
  {
    var found := FindHold(s.holds, id);
    assert RowOk(s.sessions[id], s.children);
    if found.Some? { assert HoldAgrees(s.sessions[id], s.holds[found.value]) && HoldMatches(s, s.holds[found.value]); }
    if RawSlots(s.sessions[id]) > 0 {
      assert Paid(s, id) > 0;
      CountNone(|s.transactions|, Referring(s.transactions, id));
    }
  }

  lemma SettleLiveHold(s: State, id: nat)
    requires Inv(s) && id < |s.sessions| && HasLiveHold(s, id)
    ensures s.sessions[id].checkoutAt.None? && Settle(s, id) != s
  {
    var k := FindHold(s.holds, id).value;
    assert HoldAgrees(s.sessions[id], s.holds[k]);
    NotSettledYet(s, id);
    assert Settle(s, id).holds[k].status == Settled;
  }

  /** Settling changes something exactly when the session has a live hold, so never after a check-out. */
  lemma SettledOnlyOnce(s: State, children: map<int, UserId>, calls: seq<Timed>, id: nat)
    requires Reached(s, children, calls) && id < |s.sessions|
    ensures Settle(s, id) == s <==> !HasLiveHold(s, id)
    ensures s.sessions[id].checkoutAt.Some? ==> !HasLiveHold(s, id)
  {
    ReachedInv(s, children, calls);
    if HasLiveHold(s, id) { SettleLiveHold(s, id); } else { SettleWithoutLiveHold(s, id); }
  }

  // ------------------------------------------------------------------ holds

  /** No session has two holds, and the hold's parties, amount, status and end all follow from the session. */
  lemma HoldFollowsSession(s: State, children: map<int, UserId>, calls: seq<Timed>, i: nat)
    requires Reached(s, children, calls) && i < |s.holds|
    ensures var hold := s.holds[i];
      && 0 <= hold.session < |s.sessions|
      && (forall j :: 0 <= j < |s.holds| && s.holds[j].session == hold.session ==> j == i)
      && var care := s.sessions[hold.session];
         && hold.payer == care.requester && hold.payee == care.provider && hold.amount == care.end - care.start
         && care.status in {Confirmed, Cancelled, NoShow}
         && (hold.status == Settled <==> care.checkoutAt.Some?)
         && (hold.status == Held <==> care.status == Confirmed && care.checkoutAt.None?)
         && (hold.status == Forfeited <==>
               care.status in {Cancelled, NoShow} && care.checkoutAt.None? && care.atFault == Some(care.requester))
         && (hold.status == Released <==>
               care.status in {Cancelled, NoShow} && care.checkoutAt.None? && care.atFault != Some(care.requester))
         && hold.resolvedAt == (if hold.status == Settled then care.checkoutAt else care.cancelledAt)
         && (hold.resolvedAt.None? <==> hold.status == Held)
  {
    ReachedInv(s, children, calls);
    assert HoldMatches(s, s.holds[i]) && HoldAgrees(s.sessions[s.holds[i].session], s.holds[i]);
    assert RowOk(s.sessions[s.holds[i].session], s.children);
    forall j | 0 <= j < |s.holds| && s.holds[j].session == s.holds[i].session ensures j == i {
      HoldFound(s, i);
      HoldFound(s, j);
    }
  }

  // ------------------------------------------------------------------ the balance floor

  /** No balance falls below -41 by more than the user's sessions settled without a hold. */
  lemma BalanceFloor(s: State, children: map<int, UserId>, calls: seq<Timed>, user: UserId)
    requires Reached(s, children, calls)
    ensures BalanceOf(s.accounts, user) >= -41 - Fallback(s, user)
    ensures (forall id: nat :: id < |s.sessions| && s.sessions[id].checkoutAt.Some? ==> FindHold(s.holds, id).Some?)
      ==> BalanceOf(s.accounts, user) >= -41
  {
    ReachedInv(s, children, calls);
    assert AboveFloor(s, user);
    if forall id: nat :: id < |s.sessions| && s.sessions[id].checkoutAt.Some? ==> FindHold(s.holds, id).Some? {
      SumZero(|s.sessions|, FallbackTerms(s, user));
    }
  }

  // ------------------------------------------------------------------ bookings

  /** Nobody, in either role, and no child is in two active sessions that share a slot. */
  lemma NoDoubleBooking(s: State, children: map<int, UserId>, calls: seq<Timed>, i: nat, j: nat)
    requires Reached(s, children, calls) && i < |s.sessions| && j < |s.sessions| && i != j
    requires s.sessions[i].status in {Requested, Confirmed} && s.sessions[j].status in {Requested, Confirmed}
    requires var a, b := s.sessions[i], s.sessions[j];
      a.day == b.day && (a.child == b.child || b.requester in {a.requester, a.provider}
                          || b.provider in {a.requester, a.provider})
    ensures s.sessions[i].end <= s.sessions[j].start || s.sessions[j].end <= s.sessions[i].start
  {
    ReachedInv(s, children, calls);
    assert RowOk(s.sessions[i], s.children) && RowOk(s.sessions[j], s.children);
    if i < j { assert !Clash(s.sessions[i], s.sessions[j]); } else { assert !Clash(s.sessions[j], s.sessions[i]); }
  }

  predicate Occupies(care: CareSession, user: UserId, day: int) {
    care.status in {Requested, Confirmed} && care.day == day && user in {care.requester, care.provider}
  }

  function LoadTerms(sessions: seq<CareSession>, user: UserId, day: int): nat -> int {
    (i: nat) => if i < |sessions| && Occupies(sessions[i], user, day) then sessions[i].end - sessions[i].start else 0
  }

  function SlotSet(start: int, end: int): (slots: set<int>)
    ensures forall slot :: slot in slots <==> start <= slot < end
    ensures |slots| == Max(end - start, 0)
    decreases end - start
  {
    if start >= end then {} else SlotSet(start, end - 1) + {end - 1}
  }

  /** Slots of a day taken by the user's active sessions among the first n. */
  function TakenSlots(sessions: seq<CareSession>, user: UserId, day: int, n: nat): set<int>
    requires n <= |sessions|
  {
    if n == 0 then {}
    else
      TakenSlots(sessions, user, day, n - 1)
      + if Occupies(sessions[n - 1], user, day) then SlotSet(sessions[n - 1].start, sessions[n - 1].end) else {}
  }

  predicate Takes(care: CareSession, user: UserId, day: int, slot: int) {
    Occupies(care, user, day) && care.start <= slot < care.end
  }

  lemma {:induction false} TakenSlotsMeaning(sessions: seq<CareSession>, user: UserId, day: int, n: nat, slot: int)
    requires n <= |sessions|
    ensures slot in TakenSlots(sessions, user, day, n)
       <==> exists i :: 0 <= i < n && Takes(sessions[i], user, day, slot)
  {
    if n == 0 {
    } else {
      TakenSlotsMeaning(sessions, user, day, n - 1, slot);
    }
  }

  lemma NoSharedSlot(a: CareSession, b: CareSession, user: UserId, day: int, slot: int)
    requires !Clash(a, b) && Occupies(b, user, day) && b.start <= slot < b.end
    ensures !Takes(a, user, day, slot)
  {}

  lemma SlotsNotTaken(sessions: seq<CareSession>, user: UserId, day: int, n: nat)
    requires n < |sessions| && Bookings(sessions) && Occupies(sessions[n], user, day)
    ensures TakenSlots(sessions, user, day, n) !! SlotSet(sessions[n].start, sessions[n].end)
  {
    forall slot | slot in SlotSet(sessions[n].start, sessions[n].end)
      ensures slot !in TakenSlots(sessions, user, day, n)
    {
      TakenSlotsMeaning(sessions, user, day, n, slot);
      forall i | 0 <= i < n ensures !Takes(sessions[i], user, day, slot) {
        NoSharedSlot(sessions[i], sessions[n], user, day, slot);
      }
    }
  }

  lemma {:induction false} TakenSlotsSize(sessions: seq<CareSession>, user: UserId, day: int, n: nat)
    requires n <= |sessions| && Bookings(sessions)
    requires forall i :: 0 <= i < |sessions| ==> sessions[i].start < sessions[i].end
    ensures |TakenSlots(sessions, user, day, n)| == Sum(n, LoadTerms(sessions, user, day))
  {
    if n == 0 {
    } else {
      TakenSlotsSize(sessions, user, day, n - 1);
      TakenStep(sessions, user, day, n - 1, sessions[n - 1]);
    }
  }

  lemma TakenStep(sessions: seq<CareSession>, user: UserId, day: int, n: nat, care: CareSession)
    requires n < |sessions| && Bookings(sessions) && care == sessions[n] && care.start < care.end
    ensures |TakenSlots(sessions, user, day, n + 1)|
         == |TakenSlots(sessions, user, day, n)| + LoadTerms(sessions, user, day)(n)
  {
    if Occupies(care, user, day) {
      SlotsNotTaken(sessions, user, day, n);
      DisjointSize(TakenSlots(sessions, user, day, n), SlotSet(care.start, care.end));
    }
  }

  lemma DisjointSize(a: set<int>, b: set<int>)
    requires a !! b
    ensures |a + b| == |a| + |b|
  {}

  /** A user's active sessions of one day, in either role, together fit into the day. */
  lemma DayFits(s: State, children: map<int, UserId>, calls: seq<Timed>, user: UserId, day: int)
    requires Reached(s, children, calls)
    ensures Sum(|s.sessions|, LoadTerms(s.sessions, user, day)) <= 48
  {
    ReachedInv(s, children, calls);
    forall i | 0 <= i < |s.sessions| ensures 0 <= s.sessions[i].start < s.sessions[i].end <= SLOT_COUNT {
      assert RowOk(s.sessions[i], s.children);
    }
    TakenSlotsSize(s.sessions, user, day, |s.sessions|);
    forall slot | slot in TakenSlots(s.sessions, user, day, |s.sessions|) ensures 0 <= slot < SLOT_COUNT {
      TakenSlotsMeaning(s.sessions, user, day, |s.sessions|, slot);
    }
    BoundedSetSize(TakenSlots(s.sessions, user, day, |s.sessions|), SLOT_COUNT);
  }

  lemma BoundedSetSize(slots: set<int>, n: nat)
    requires forall slot :: slot in slots ==> 0 <= slot < n
    ensures |slots| <= n
  {
    var all := SlotSet(0, n);
    assert all == slots + (all - slots);
  }

  // ------------------------------------------------------------------ suspension

  /**
   * A suspension in any reachable state, at any time, marks the target, cancels its active sessions, releases every
   * hold on them and refunds each payer exactly that; every other row and the ledger stay as they are.
   */
  lemma SuspendInAnyRun(s: State, children: map<int, UserId>, calls: seq<Timed>, target: UserId, now: int)
    requires Reached(s, children, calls)
    ensures var t := EmergencySuspend(s, true, target, true, now).state;
      && RowsEnded(s, t, target, now) && Refunded(s, t, target)
      && t == s.(sessions := t.sessions, holds := t.holds, accounts := t.accounts,
                 sanctioned := s.sanctioned + {target}, inactive := s.inactive + {target})
  {
    ReachedInv(s, children, calls);
    var banned := Ban(s, target);
    SideStep(s, banned);
    SuspendEndsEverything(banned, target, now);
    BanChangesMarks(s, banned, StopSessions(banned, target, now), target, now);
  }
}
