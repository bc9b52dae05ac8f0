/** What each trust-level call answers and does, told from the rows, and which calls are behind the rows of a run. */
module TrustOutcomes {
  import opened Prelude
  import opened TrustModel
  import opened TrustTheorems

  // ------------------------------------------------------------------ one call

  /** The key of two users' relationship, in either order: the lower id comes first. */
  predicate KeyOf(pair: Pair, a: UserId, b: UserId) { pair.0 <= pair.1 && (pair == (a, b) || pair == (b, a)) }

  /** All relationships but one are as before. */
  ghost predicate OtherPairsStay(s: State, t: State, pair: Pair) {
    forall other :: other != pair ==>
      && (other in t.relationships <==> other in s.relationships)
      && (other in t.relationships ==> t.relationships[other] == s.relationships[other])
  }

  /** The pair's level goes from one to the other, which one history row and one event record. */
  ghost predicate Moves(s: State, t: State, pair: Pair, previous: Level, next: Level, admin: Option<UserId>) {
    && pair in s.relationships && s.relationships[pair].level == previous
    && pair in t.relationships && t.relationships[pair].level == next
    && t.history == s.history + [Change(pair, previous, next, admin)]
    && t.events == s.events + [Transition(Some(previous), next)]
  }

  /** No level changes, and nothing is recorded. */
  ghost predicate LevelsStay(s: State, t: State, pair: Pair) {
    && pair in s.relationships && pair in t.relationships
    && t.relationships[pair].level == s.relationships[pair].level
    && t.history == s.history && t.events == s.events
  }

  /** The gate for solo requests opens for pairs at L3, in either order, and for nobody else. */
  lemma GateOutcome(s: State, a: UserId, b: UserId, pair: Pair)
    requires KeyOf(pair, a, b)
    ensures RequireL3(s, a, b)
         == if pair in s.relationships && s.relationships[pair].level == L3 then Done else Forbidden
  {}

  /** Two users without a relationship get one at L1, with no joint session; an existing one is left alone. */
  lemma GrantOutcome(s: State, a: UserId, b: UserId, pair: Pair)
    requires KeyOf(pair, a, b)
    ensures var Result(t, reply) := GrantL1(s, a, b);
      && reply == Done && (pair in s.relationships ==> t == s)
      && t == s.(relationships := t.relationships, events := t.events) && OtherPairsStay(s, t, pair)
      && (pair !in s.relationships ==>
            && pair in t.relationships && t.relationships[pair] == Relationship(L1, 0)
            && t.events == s.events + [Transition(None, L1)])
  {}

  /** Acquaintances can schedule a joint session, which brings them from L1 to L2 and changes no other level. */
  lemma ScheduleOutcome(s: State, initiator: UserId, partner: UserId, pair: Pair)
    requires KeyOf(pair, initiator, partner)
    ensures var Result(t, reply) := ScheduleJoint(s, initiator, partner);
      && reply == (if pair in s.relationships then Done else NotFound) && (reply != Done ==> t == s)
      && (reply == Done ==>
            && t.joints == s.joints + [Joint(initiator, partner, false, false, false)]
            && t.required == s.required && OtherPairsStay(s, t, pair) && pair in t.relationships
            && t.relationships[pair].jointCount == s.relationships[pair].jointCount
            && if s.relationships[pair].level == L1 then Moves(s, t, pair, L1, L2, None) else LevelsStay(s, t, pair))
  {}

  /** Everybody sets their own requirement, which is at least 1. */
  lemma SettingOutcome(s: State, user: UserId, count: int)
    ensures var Result(t, reply) := SetRequired(s, user, count);
      && reply == (if count < 1 then BadRequest else Done) && (reply != Done ==> t == s)
      && (reply == Done ==>
            && t == s.(required := t.required)
            && forall other :: RequiredOf(t.required, other)
                 == if other == user then count else if other in s.required then s.required[other] else 3)
  {}

  /** Only an administrator demotes, by one level and never below L1; the count of joint sessions stays. */
  lemma DemotionOutcome(s: State, isAdmin: bool, admin: UserId, a: UserId, b: UserId, pair: Pair)
    requires KeyOf(pair, a, b)
    ensures var Result(t, reply) := Demote(s, isAdmin, admin, a, b);
      && (reply == Forbidden <==> !isAdmin)
      && (reply == NotFound <==> isAdmin && pair !in s.relationships)
      && (reply == BadRequest <==> isAdmin && pair in s.relationships && s.relationships[pair].level == L1)
      && (reply == Done <==> isAdmin && pair in s.relationships && s.relationships[pair].level != L1)
      && (reply != Done ==> t == s)
      && (reply == Done ==>
            && t == s.(relationships := t.relationships, history := t.history, events := t.events)
            && (Moves(s, t, pair, L3, L2, Some(admin)) || Moves(s, t, pair, L2, L1, Some(admin)))
            && t.relationships[pair].jointCount == s.relationships[pair].jointCount && OtherPairsStay(s, t, pair))
  {}

  /** The user's confirmation sets their own flag on row id and no other; two flags complete the joint session. */
  ghost predicate ConfirmedBy(s: State, t: State, id: nat, user: UserId) {
    && id < |s.joints| == |t.joints| && (forall i :: 0 <= i < |s.joints| && i != id ==> t.joints[i] == s.joints[i])
    && var before, after := s.joints[id], t.joints[id];
       && after.initiator == before.initiator && after.partner == before.partner
       && (after.byInitiator <==> before.byInitiator || user == before.initiator)
       && (after.byPartner <==> before.byPartner || (user == before.partner && user != before.initiator))
       && (after.completed <==> after.byInitiator && after.byPartner)
       && (after.completed == before.completed ==> t == s.(joints := t.joints))
  }

  /** A completion counts one more joint session of the pair and none of any other. */
  ghost predicate CountedFor(s: State, t: State, id: nat, pair: Pair)
    requires id < |s.joints| == |t.joints|
  {
    && pair in s.relationships && pair in t.relationships && OtherPairsStay(s, t, pair)
    && t.relationships[pair].jointCount
       == s.relationships[pair].jointCount + if t.joints[id].completed && !s.joints[id].completed then 1 else 0
  }

  lemma ConfirmReply(s: State, calls: seq<Call>, id: int, user: UserId)
    requires Reached(s, calls)
    ensures var Result(t, reply) := ConfirmJoint(s, id, user);
      && (reply == NotFound <==> !(0 <= id < |s.joints|))
      && (reply == Forbidden <==> 0 <= id < |s.joints| && user !in {s.joints[id].initiator, s.joints[id].partner})
      && (reply == Done <==> 0 <= id < |s.joints| && user in {s.joints[id].initiator, s.joints[id].partner})
      && (reply != Done ==> t == s)
  {
    NeverCrashes(s, calls, id, user);
  }

  lemma ConfirmRow(s: State, id: nat, user: UserId)
    requires Inv(s) && ConfirmJoint(s, id, user).reply == Done
    ensures ConfirmedBy(s, ConfirmJoint(s, id, user).state, id, user)
  {
    assert JointOk(s, s.joints[id]);
  }

  lemma ConfirmCounts(s: State, id: nat, user: UserId, pair: Pair)
    requires Inv(s) && ConfirmJoint(s, id, user).reply == Done && |ConfirmJoint(s, id, user).state.joints| == |s.joints|
    requires KeyOf(pair, s.joints[id].initiator, s.joints[id].partner)
    ensures CountedFor(s, ConfirmJoint(s, id, user).state, id, pair)
  {
    assert JointOk(s, s.joints[id]);
  }

  /**
   * Either party of a joint session can confirm it, and sets only their own flag; the session is completed when both
   * have. Nothing but that row changes unless this confirmation is the one that completes it, which counts one more
   * joint session of the pair and no other.
   */
  lemma ConfirmOutcome(s: State, calls: seq<Call>, id: int, user: UserId)
    requires Reached(s, calls)
    ensures var Result(t, reply) := ConfirmJoint(s, id, user);
      && (reply == NotFound <==> !(0 <= id < |s.joints|))
      && (reply == Forbidden <==> 0 <= id < |s.joints| && user !in {s.joints[id].initiator, s.joints[id].partner})
      && (reply == Done <==> 0 <= id < |s.joints| && user in {s.joints[id].initiator, s.joints[id].partner})
      && (reply != Done ==> t == s)
      && (reply == Done ==>
            && ConfirmedBy(s, t, id, user)
            && forall pair :: KeyOf(pair, s.joints[id].initiator, s.joints[id].partner) ==> CountedFor(s, t, id, pair))
  {
    ConfirmReply(s, calls, id, user);
    RunKeeps(calls);
    if ConfirmJoint(s, id, user).reply == Done {
      ConfirmRow(s, id, user);
      forall pair | KeyOf(pair, s.joints[id].initiator, s.joints[id].partner)
        ensures CountedFor(s, ConfirmJoint(s, id, user).state, id, pair)
      {
        ConfirmCounts(s, id, user, pair);
      }
    }
  }

  /** Row id is not completed yet, and the user's confirmation is the only one missing. */
  predicate Completes(s: State, id: nat, user: UserId) {
    && id < |s.joints| && !s.joints[id].completed && user in {s.joints[id].initiator, s.joints[id].partner}
    && (s.joints[id].byInitiator || user == s.joints[id].initiator)
    && (s.joints[id].byPartner || user != s.joints[id].initiator)
  }

  /** So many joint sessions are enough for both users, each of whom requires 3 unless they set something else. */
  predicate Satisfies(s: State, count: int, pair: Pair) {
    && count >= (if pair.0 in s.required then s.required[pair.0] else 3)
    && count >= (if pair.1 in s.required then s.required[pair.1] else 3)
  }

  lemma CompletionShifts(s: State, id: nat, user: UserId, pair: Pair)
    requires Completes(s, id, user) && KeyOf(pair, s.joints[id].initiator, s.joints[id].partner)
    requires pair in s.relationships
    ensures var t := ConfirmJoint(s, id, user).state;
      && (if s.relationships[pair].level == L2 && Satisfies(s, s.relationships[pair].jointCount + 1, pair)
          then Moves(s, t, pair, L2, L3, None) else LevelsStay(s, t, pair))
      && t.joints == s.joints[id := s.joints[id].(byInitiator := true, byPartner := true, completed := true)]
  {}

  lemma CompletionKeepsSettings(s: State, id: nat, user: UserId, other: UserId)
    requires Completes(s, id, user)
    ensures RequiredOf(ConfirmJoint(s, id, user).state.required, other) == RequiredOf(s.required, other)
  {}

  /**
   * The confirmation that completes a joint session promotes an L2 pair exactly when its count of completed sessions
   * meets what both require; any other level stays, and so do the requirements.
   */
  lemma PromotedWhenBothAreSatisfied(s: State, calls: seq<Call>, id: nat, user: UserId, pair: Pair)
    requires Reached(s, calls) && Completes(s, id, user)
    requires KeyOf(pair, s.joints[id].initiator, s.joints[id].partner)
    ensures var t, count := ConfirmJoint(s, id, user).state, CompletedCount(s, pair) + 1;
      && CompletedCount(t, pair) == count && pair in s.relationships
      && (if s.relationships[pair].level == L2 && Satisfies(s, count, pair) then Moves(s, t, pair, L2, L3, None)
          else LevelsStay(s, t, pair))
      && forall other :: RequiredOf(t.required, other) == RequiredOf(s.required, other)
  {
    RunKeeps(calls);
    assert JointOk(s, s.joints[id]) && PairOk(s, pair);
    CompletionShifts(s, id, user, pair);
    CompletedAfterUpdate(s.joints, id, s.joints[id].(byInitiator := true, byPartner := true, completed := true), pair);
    forall other { CompletionKeepsSettings(s, id, user, other); }
  }

  // ------------------------------------------------------------------ the calls behind a run

  /** The user confirmed joint session i, which existed by then. */
  predicate Heard(calls: seq<Call>, i: nat, user: UserId): (heard: bool)
    ensures heard ==> CallConfirmJoint(i, user) in calls
  {
    calls != [] &&
      var rest := calls[..|calls| - 1];
      Heard(rest, i, user) || (calls[|calls| - 1] == CallConfirmJoint(i, user) && i < |Run(rest).joints|)
  }

  lemma {:induction false} NotHeardYet(calls: seq<Call>, i: nat, user: UserId)
    requires i >= |Run(calls).joints|
    ensures !Heard(calls, i, user)
  {
    if calls == [] {
    } else {
      NotHeardYet(calls[..|calls| - 1], i, user);
    }
  }

  ghost predicate FlagsHeard(joint: Joint, calls: seq<Call>, i: nat) {
    && (joint.byInitiator <==> Heard(calls, i, joint.initiator))
    && (joint.byPartner <==> joint.partner != joint.initiator && Heard(calls, i, joint.partner))
  }

  lemma FlagsStep(s: State, t: State, rest: seq<Call>, last: Call, i: nat)
    requires s == Run(rest) && t == Step(s, last).state && i < |t.joints|
    requires i < |s.joints| ==> FlagsHeard(s.joints[i], rest, i)
    ensures FlagsHeard(t.joints[i], rest + [last], i)
  {
    assert (rest + [last])[..|rest|] == rest;
    match last
    case CallConfirmJoint(id, user) =>
      ConfirmOutcome(s, rest, id, user);
    case CallScheduleJoint(initiator, partner) =>
      if i == |s.joints| {
        NotHeardYet(rest, i, initiator);
        NotHeardYet(rest, i, partner);
      }
    case _ =>
  }

  /**
   * In every run a party's flag on a joint session is set if and only if that party itself confirmed it; so a completed
   * one was confirmed by two different users.
   */
  lemma {:induction false} FlagsHaveCalls(calls: seq<Call>, i: nat)
    requires i < |Run(calls).joints|
    ensures var joint := Run(calls).joints[i];
      && (joint.byInitiator <==> Heard(calls, i, joint.initiator))
      && (joint.byPartner <==> joint.partner != joint.initiator && Heard(calls, i, joint.partner))
      && (joint.completed ==>
            && joint.initiator != joint.partner
            && CallConfirmJoint(i, joint.initiator) in calls && CallConfirmJoint(i, joint.partner) in calls)
  {
    if calls == [] {
    } else {
      var rest, last := calls[..|calls| - 1], calls[|calls| - 1];
      if i < |Run(rest).joints| { FlagsHaveCalls(rest, i); }
      assert calls == rest + [last];
      FlagsStep(Run(rest), Run(calls), rest, last, i);
      CountIsCompletedFlags(calls, i);
    }
  }

  lemma CountIsCompletedFlags(calls: seq<Call>, i: nat)
    requires i < |Run(calls).joints|
    ensures var joint := Run(calls).joints[i]; joint.completed <==> joint.byInitiator && joint.byPartner
  {
    RunKeeps(calls);
    assert JointOk(Run(calls), Run(calls).joints[i]);
  }

  /** In every run two users have a relationship if and only if L1 was granted to them, in either order. */
  lemma {:induction false} GrantsHaveCalls(calls: seq<Call>, pair: Pair)
    ensures pair in Run(calls).relationships <==>
      pair.0 <= pair.1 && (CallGrantL1(pair.0, pair.1) in calls || CallGrantL1(pair.1, pair.0) in calls)
  {
    if calls == [] {
    } else {
      var rest, last := calls[..|calls| - 1], calls[|calls| - 1];
      GrantsHaveCalls(rest, pair);
      assert calls == rest + [last];
      GrantStep(Run(rest), last, pair);
    }
  }

  lemma GrantStep(s: State, call: Call, pair: Pair)
    ensures pair in Step(s, call).state.relationships <==>
      || pair in s.relationships
      || (pair.0 <= pair.1 && (call == CallGrantL1(pair.0, pair.1) || call == CallGrantL1(pair.1, pair.0)))
  {}

  /** The user's last requirement that was not refused, or 3. */
  function LastRequired(calls: seq<Call>, user: UserId): int {
    if calls == [] then 3
    else
      match calls[|calls| - 1]
      case CallSetRequired(who, count) =>
        if who == user && count >= 1 then count else LastRequired(calls[..|calls| - 1], user)
      case _ => LastRequired(calls[..|calls| - 1], user)
  }

  lemma RequirementStep(s: State, call: Call, user: UserId)
    ensures RequiredOf(Step(s, call).state.required, user)
         == if call.CallSetRequired? && call.user == user && call.count >= 1 then call.count
            else RequiredOf(s.required, user)
  {}

  /** In every run a user's requirement is the last one they set, or 3, whatever rows were created on the way. */
  lemma {:induction false} RequirementIsLastSet(calls: seq<Call>, user: UserId)
    ensures RequiredOf(Run(calls).required, user) == LastRequired(calls, user)
  {
    if calls == [] {
    } else {
      RequirementIsLastSet(calls[..|calls| - 1], user);
      RequirementStep(Run(calls[..|calls| - 1]), calls[|calls| - 1], user);
    }
  }

  /** The events of changes, without the ones of new relationships. */
  function ChangesLogged(events: seq<Transition>): seq<Transition> {
    if events == [] then []
    else
      var last := events[|events| - 1];
      ChangesLogged(events[..|events| - 1]) + if last.previous.Some? then [last] else []
  }

  function EventsOf(history: seq<Change>): seq<Transition> {
    seq(|history|, i requires 0 <= i < |history| => Transition(Some(history[i].previous), history[i].next))
  }

  lemma LoggedMore(events: seq<Transition>, event: Transition)
    ensures ChangesLogged(events + [event])
         == ChangesLogged(events) + if event.previous.Some? then [event] else []
  {
    assert (events + [event])[..|events|] == events;
  }

  ghost predicate SameLog(s: State) { ChangesLogged(s.events) == EventsOf(s.history) }

  /** Nothing was logged, or a new relationship, or a change together with its history row. */
  ghost predicate LogGrows(s: State, t: State) {
    || (t.history == s.history && t.events == s.events)
    || (t.history == s.history && t.events == s.events + [Transition(None, L1)])
    || exists change ::
         t.history == s.history + [change] && t.events == s.events + [Transition(Some(change.previous), change.next)]
  }

  lemma LogGrowsSame(s: State, t: State)
    requires SameLog(s) && LogGrows(s, t)
    ensures SameLog(t)
  {
    if t.history == s.history {
      LoggedMore(s.events, Transition(None, L1));
    } else {
      var change :|
        t.history == s.history + [change] && t.events == s.events + [Transition(Some(change.previous), change.next)];
      LoggedMore(s.events, Transition(Some(change.previous), change.next));
      assert EventsOf(t.history) == EventsOf(s.history) + [Transition(Some(change.previous), change.next)];
    }
  }

  lemma ShiftGrowsLog(s: State, t: State, pair: Pair, next: Level, admin: Option<UserId>)
    requires pair in s.relationships && t.history == Shift(s, pair, next, admin).history
    requires t.events == Shift(s, pair, next, admin).events
    ensures LogGrows(s, t)
  {}

  lemma LogStep(s: State, call: Call)
    ensures LogGrows(s, Step(s, call).state)
  {
    match call
    case CallScheduleJoint(initiator, partner) =>
      var pair := NormalizePair(initiator, partner);
      if pair in s.relationships { ShiftGrowsLog(s, Shift(s, pair, L2, None), pair, L2, None); }
    case CallConfirmJoint(id, _) =>
      if 0 <= id < |s.joints| {
        var pair := NormalizePair(s.joints[id].initiator, s.joints[id].partner);
        if pair in s.relationships { ShiftGrowsLog(s, Shift(s, pair, L3, None), pair, L3, None); }
      }
    case CallDemote(_, admin, a, b) =>
      var pair := NormalizePair(a, b);
      if pair in s.relationships {
        ShiftGrowsLog(s, Shift(s, pair, L2, Some(admin)), pair, L2, Some(admin));
        ShiftGrowsLog(s, Shift(s, pair, L1, Some(admin)), pair, L1, Some(admin));
      }
    case _ =>
  }

  /** In every run the events of level changes tell the same story as the history, row by row and in order. */
  lemma {:induction false} EventsMirrorHistory(calls: seq<Call>)
    ensures ChangesLogged(Run(calls).events) == EventsOf(Run(calls).history)
  {
    if calls == [] {
    } else {
      EventsMirrorHistory(calls[..|calls| - 1]);
      LogStep(Run(calls[..|calls| - 1]), calls[|calls| - 1]);
      LogGrowsSame(Run(calls[..|calls| - 1]), Run(calls));
    }
  }

  /** A downward history row has its administrator's call, an upward one to L2 a joint session scheduled by the pair. */
  ghost predicate ChangeHasCall(calls: seq<Call>, change: Change) {
    var a, b := change.pair.0, change.pair.1;
    match change.admin
    case Some(admin) => CallDemote(true, admin, a, b) in calls || CallDemote(true, admin, b, a) in calls
    case None =>
      change.next == L2 ==> CallScheduleJoint(a, b) in calls || CallScheduleJoint(b, a) in calls
  }

  lemma ChangeStep(s: State, call: Call, i: nat)
    requires i < |Step(s, call).state.history|
    ensures (i < |s.history| && Step(s, call).state.history[i] == s.history[i])
         || ChangeHasCall([call], Step(s, call).state.history[i])
  {}

  /** In every run each level change goes back to a call of the kind that may make it. */
  lemma {:induction false} ChangesHaveCalls(calls: seq<Call>, i: nat)
    requires i < |Run(calls).history|
    ensures ChangeHasCall(calls, Run(calls).history[i])
  {
    var rest, last := calls[..|calls| - 1], calls[|calls| - 1];
    ChangeStep(Run(rest), last, i);
    assert calls == rest + [last];
    if i < |Run(rest).history| && Run(calls).history[i] == Run(rest).history[i] {
      ChangesHaveCalls(rest, i);
    } else {
      assert last in calls;
    }
  }
}
