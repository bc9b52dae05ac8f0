/** Building runs: a guardian who works shifts, a helper without any, and one day after the other. */
module CareScenarios {
  import opened Prelude
  import opened ScheduleSlots
  import opened CareFrames
  import opened CareModel
  import WorkSchedule

  const GUARDIAN := 1
  const HELPER := 2
  const CHILD := 7
  const CHILDREN := map[CHILD := GUARDIAN]

  // ------------------------------------------------------------------ runs, call by call

  ghost predicate Leads(calls: seq<Timed>, s: State) { s == Run(CHILDREN, calls) }

  /** The calls go on after `before`, all of them at the same time. */
  predicate Continues(before: seq<Timed>, calls: seq<Timed>, now: int) {
    && |before| <= |calls|
    && (forall i :: 0 <= i < |before| ==> calls[i] == before[i])
    && forall i :: |before| <= i < |calls| ==> calls[i].now == now
  }

  /** One more call. */
  lemma Then(before: seq<Timed>, s: State, call: Call, now: int) returns (calls: seq<Timed>, t: State)
    requires Leads(before, s)
    ensures Leads(calls, t) && t == Step(s, call, now).state && calls == before + [Timed(call, now)]
  {
    calls, t := before + [Timed(call, now)], Step(s, call, now).state;
    assert calls[..|calls| - 1] == before;
  }

  // ------------------------------------------------------------------ asking

  lemma RequestPasses(s: State, requester: UserId, provider: UserId, child: int, day: int, start: nat, end: nat)
    requires start < end <= SLOT_COUNT && child in s.children && s.children[child] == requester
    requires BalanceOf(s.accounts, requester) > NEGATIVE_BALANCE_LIMIT
    requires BusyThroughout(WorkSchedule.MaskOn(s.schedules, requester, day), start, end)
    requires FreeThroughout(WorkSchedule.MaskOn(s.schedules, provider, day), start, end)
    requires forall i :: 0 <= i < |s.sessions| ==> s.sessions[i].day != day && s.sessions[i].checkoutAt.None?
    ensures var Result(t, reply) := CreateRequest(s, requester, provider, child, day, start, end, false);
      && reply == Done
      && t == s.(accounts := Touch(s.accounts, requester), requestLog := t.requestLog,
                 sessions := s.sessions + [CareSession(requester, provider, child, day, start, end, Requested,
                                                       None, None, None, None, None)])
  {
    FitsComplementaryMeans(start, end, WorkSchedule.MaskOn(s.schedules, requester, day),
                           WorkSchedule.MaskOn(s.schedules, provider, day));
  }

  /** A day shift with the night before it leaves no free slot until 15:00. */
  lemma NightThenDay(s: State, day: int)
    ensures var registered := WorkSchedule.Register(s.schedules, WorkSchedule.Shift(GUARDIAN, day, Day));
      var rows := WorkSchedule.Register(registered, WorkSchedule.Shift(GUARDIAN, day - 1, Night));
      && BusyThroughout(WorkSchedule.MaskOn(rows, GUARDIAN, day), 0, 30)
      && rows.Keys == s.schedules.Keys + {(GUARDIAN, day), (GUARDIAN, day - 1)}
  {
    WorkSchedule.TemplateShape(Day);
    WorkSchedule.TemplateShape(Night);
    var rows := WorkSchedule.Register(s.schedules, WorkSchedule.Shift(GUARDIAN, day, Day));
    WorkSchedule.TailShape(TemplateMasks(Day).0, Day, false, TemplateMasks(Night).1);
    assert WorkSchedule.MaskOn(rows, GUARDIAN, day) == TemplateMasks(Day).0;
  }

  lemma FreeWithoutRow(rows: map<WorkSchedule.Key, WorkSchedule.Row>, user: UserId, day: int)
    requires (user, day) !in rows
    ensures FreeThroughout(WorkSchedule.MaskOn(rows, user, day), 0, SLOT_COUNT)
  {
    WorkSchedule.FullShape();
  }

  function Care(day: int, end: int, status: CareStatus): CareSession {
    CareSession(GUARDIAN, HELPER, CHILD, day, 0, end, status, None, None, None, None, None)
  }

  /** The helper never registers a shift, the day is not booked, and nobody owes an evaluation. */
  ghost predicate CanAsk(s: State, day: int) {
    && s.children == CHILDREN && (forall key :: key in s.schedules ==> key.0 == GUARDIAN)
    && BalanceOf(s.accounts, GUARDIAN) > NEGATIVE_BALANCE_LIMIT
    && forall i :: 0 <= i < |s.sessions| ==> s.sessions[i].day != day && s.sessions[i].checkoutAt.None?
  }

  ghost predicate Asked(s: State, t: State, day: int, end: int) {
    && t == s.(accounts := Touch(s.accounts, GUARDIAN), schedules := t.schedules, requestLog := t.requestLog,
               sessions := s.sessions + [Care(day, end, Requested)])
    && forall key :: key in t.schedules ==> key.0 == GUARDIAN
  }

  function Shifts(s: State, day: int): State {
    RegisterShift(RegisterShift(s, WorkSchedule.Shift(GUARDIAN, day, Day)).state,
                  WorkSchedule.Shift(GUARDIAN, day - 1, Night)).state
  }

  lemma AskAfterShifts(s: State, shifted: State, day: int, end: nat)
    requires 0 < end <= 30 && CanAsk(s, day) && shifted == Shifts(s, day)
    ensures Asked(s, CreateRequest(shifted, GUARDIAN, HELPER, CHILD, day, 0, end, false).state, day, end)
  {
    NightThenDay(s, day);
    FreeWithoutRow(shifted.schedules, HELPER, day);
    RequestPasses(shifted, GUARDIAN, HELPER, CHILD, day, 0, end);
  }

  lemma ThenShift(before: seq<Timed>, s: State, shift: WorkSchedule.Shift, now: int)
    returns (calls: seq<Timed>, t: State)
    requires Leads(before, s)
    ensures Leads(calls, t) && t == RegisterShift(s, shift).state && Continues(before, calls, now)
  {
    ShiftFrame(s, CallRegisterShift(shift), now);
    calls, t := Then(before, s, CallRegisterShift(shift), now);
  }

  /** Both shifts, then a request for [0, end) of the day. */
  lemma Ask(before: seq<Timed>, s: State, day: int, end: nat, now: int) returns (calls: seq<Timed>, t: State)
    requires Leads(before, s) && 0 < end <= 30 && CanAsk(s, day)
    ensures Leads(calls, t) && Asked(s, t, day, end) && Continues(before, calls, now)
  {
    calls, t := ThenShift(before, s, WorkSchedule.Shift(GUARDIAN, day, Day), now);
    calls, t := ThenShift(calls, t, WorkSchedule.Shift(GUARDIAN, day - 1, Night), now);
    AskAfterShifts(s, t, day, end);
    calls, t := Then(calls, t, CallCreateRequest(GUARDIAN, HELPER, CHILD, day, 0, end, false), now);
  }

  // ------------------------------------------------------------------ accepting

  /** Accepting a request moves its length into the held part of the requester's account. */
  ghost predicate Accepted(s: State, t: State, id: nat)
    requires id < |s.sessions|
  {
    var care := s.sessions[id];
    && t == s.(accounts := t.accounts, trust := t.trust, sessions := s.sessions[id := care.(status := Confirmed)],
               holds := s.holds + [Hold(id, care.requester, care.provider, care.Length(), Held, None)])
    && BalanceOf(t.accounts, care.requester) == BalanceOf(s.accounts, care.requester) - care.Length()
    && HeldOf(t.accounts, care.requester) == HeldOf(s.accounts, care.requester) + care.Length()
    && BalanceOf(t.accounts, care.provider) == BalanceOf(s.accounts, care.provider)
    && HeldOf(t.accounts, care.provider) == HeldOf(s.accounts, care.provider)
  }

  ghost predicate CanAccept(s: State, id: nat, provider: UserId) {
    && id < |s.sessions| && s.sessions[id].status == Requested && s.sessions[id].provider == provider
    && s.sessions[id].requester != provider && forall i :: 0 <= i < |s.sessions| ==> s.sessions[i].checkoutAt.None?
  }

  lemma AcceptHolds(s: State, id: nat, provider: UserId)
    requires CanAccept(s, id, provider) && BalanceOf(s.accounts, s.sessions[id].requester) > NEGATIVE_BALANCE_LIMIT
    ensures Accepted(s, Accept(s, id, provider).state, id)
  {
    assert !HasPendingEvaluation(s, provider);
  }

  /** At the limit the session is confirmed all the same, without a hold. */
  lemma AcceptWithoutHold(s: State, id: nat, provider: UserId)
    requires CanAccept(s, id, provider) && BalanceOf(s.accounts, s.sessions[id].requester) <= NEGATIVE_BALANCE_LIMIT
    ensures var t := Accept(s, id, provider).state;
      t == s.(accounts := Touch(s.accounts, s.sessions[id].requester), trust := t.trust,
              sessions := s.sessions[id := s.sessions[id].(status := Confirmed)])
  {
    assert !HasPendingEvaluation(s, provider);
  }

  // ------------------------------------------------------------------ a whole day

  /** The day's session is confirmed and held; nothing else happened. */
  ghost predicate DayHeld(s: State, t: State, day: int, end: nat) {
    && t == s.(accounts := t.accounts, schedules := t.schedules, trust := t.trust, requestLog := t.requestLog,
               sessions := s.sessions + [Care(day, end, Confirmed)],
               holds := s.holds + [Hold(|s.sessions|, GUARDIAN, HELPER, end, Held, None)])
    && (forall key :: key in t.schedules ==> key.0 == GUARDIAN)
    && BalanceOf(t.accounts, GUARDIAN) == BalanceOf(s.accounts, GUARDIAN) - end
    && HeldOf(t.accounts, GUARDIAN) == HeldOf(s.accounts, GUARDIAN) + end
    && BalanceOf(t.accounts, HELPER) == BalanceOf(s.accounts, HELPER)
    && HeldOf(t.accounts, HELPER) == HeldOf(s.accounts, HELPER)
  }

  lemma HoldDay(before: seq<Timed>, s: State, day: int, end: nat, now: int) returns (calls: seq<Timed>, t: State)
    requires Leads(before, s) && 0 < end <= 30 && CanAsk(s, day)
    ensures Leads(calls, t) && DayHeld(s, t, day, end) && Continues(before, calls, now)
  {
    var asked;
    calls, asked := Ask(before, s, day, end, now);
    AcceptHolds(asked, |s.sessions|, HELPER);
    HeldAfterAsking(s, asked, Accept(asked, |s.sessions|, HELPER).state, day, end);
    calls, t := Then(calls, asked, CallAccept(|s.sessions|, HELPER), now);
  }

  lemma HeldAfterAsking(s: State, asked: State, t: State, day: int, end: nat)
    requires Asked(s, asked, day, end) && Accepted(asked, t, |s.sessions|)
    ensures DayHeld(s, t, day, end)
  {
    assert asked.sessions[|s.sessions| := Care(day, end, Confirmed)] == s.sessions + [Care(day, end, Confirmed)];
  }

  /** Another day can be asked for afterwards, while the balance allows it. */
  lemma CanAskAfter(s: State, t: State, day: int, end: nat, next: int)
    requires CanAsk(s, next) && next != day && BalanceOf(t.accounts, GUARDIAN) > NEGATIVE_BALANCE_LIMIT
    requires DayHeld(s, t, day, end) || Asked(s, t, day, end)
    ensures CanAsk(t, next)
  {}
}
