/** What the trust-level calls keep, hence what holds after every run of them. */
module TrustTheorems {
  import opened Prelude
  import opened TrustModel

  // ------------------------------------------------------------------ reading the history and the log

  /** The level reached by the pair's history rows from L1; None when they do not chain. */
  function Replay(history: seq<Change>, pair: Pair): Option<Level> {
    if history == [] then Some(L1)
    else
      var last, before := history[|history| - 1], Replay(history[..|history| - 1], pair);
      if last.pair != pair then before
      else if before == Some(last.previous) then Some(last.next)
      else None
  }

  /** One level up by the system, or one level down by an administrator. */
  predicate OneStep(change: Change) {
    || (change.admin.None? && (change.previous, change.next) in {(L1, L2), (L2, L3)})
    || (change.admin.Some? && (change.previous, change.next) in {(L3, L2), (L2, L1)})
  }

  function Promotion(history: seq<Change>, pair: Pair): nat -> bool {
    (i: nat) => i < |history| && history[i].pair == pair && history[i].next == L3
  }

  function DroppedToL1(history: seq<Change>): nat -> bool {
    (i: nat) => i < |history| && history[i].next == L1
  }

  function CompletedBy(joints: seq<Joint>, pair: Pair): nat -> bool {
    (i: nat) => i < |joints| && joints[i].completed && NormalizePair(joints[i].initiator, joints[i].partner) == pair
  }

  function Reaches(events: seq<Transition>, level: Level): nat -> bool {
    (i: nat) => i < |events| && events[i].next == level
  }

  function EventsTo(events: seq<Transition>, level: Level): nat { Count(|events|, Reaches(events, level)) }

  function Promotions(s: State, pair: Pair): nat { Count(|s.history|, Promotion(s.history, pair)) }

  function CompletedCount(s: State, pair: Pair): nat { Count(|s.joints|, CompletedBy(s.joints, pair)) }

  function PairsAtL2(s: State): set<Pair> {
    set pair | pair in s.relationships && s.relationships[pair].level == L2
  }

  // ------------------------------------------------------------------ the invariant

  ghost predicate JointOk(s: State, joint: Joint) {
    && NormalizePair(joint.initiator, joint.partner) in s.relationships
    && (joint.completed <==> joint.byInitiator && joint.byPartner)
  }

  ghost predicate PairOk(s: State, pair: Pair) {
    && Replay(s.history, pair) == Some(if pair in s.relationships then s.relationships[pair].level else L1)
    && (pair in s.relationships ==>
          && s.relationships[pair].jointCount == CompletedCount(s, pair) >= Promotions(s, pair)
          && (s.relationships[pair].level == L3 ==> s.relationships[pair].jointCount >= 1))
  }

  ghost predicate Inv(s: State) {
    && (forall i :: 0 <= i < |s.joints| ==> JointOk(s, s.joints[i]))
    && (forall i :: 0 <= i < |s.history| ==> OneStep(s.history[i]) && s.history[i].pair in s.relationships)
    && (forall user :: user in s.required ==> s.required[user] >= MIN_REQUIRED_JOINT_COUNT)
    && (forall pair :: PairOk(s, pair))
    && EventsTo(s.events, L2)
         == EventsTo(s.events, L3) + |PairsAtL2(s)| + Count(|s.history|, DroppedToL1(s.history))
  }

  // ------------------------------------------------------------------ how the counts move

  lemma CountAppendChange(history: seq<Change>, change: Change, pair: Pair)
    ensures var after := history + [change];
      && Count(|after|, Promotion(after, pair))
         == Count(|history|, Promotion(history, pair)) + (if change.pair == pair && change.next == L3 then 1 else 0)
      && Count(|after|, DroppedToL1(after))
         == Count(|history|, DroppedToL1(history)) + (if change.next == L1 then 1 else 0)
  {
    var after := history + [change];
    CountSame(|history|, Promotion(history, pair), Promotion(after, pair));
    CountSame(|history|, DroppedToL1(history), DroppedToL1(after));
  }

  lemma CountAppendEvent(events: seq<Transition>, event: Transition, level: Level)
    ensures EventsTo(events + [event], level) == EventsTo(events, level) + if event.next == level then 1 else 0
  {
    CountSame(|events|, Reaches(events, level), Reaches(events + [event], level));
  }

  /** Setting one pair's level adds it to or removes it from the pairs at L2. */
  lemma PairsAtL2Change(s: State, t: State, pair: Pair)
    requires pair in t.relationships && t.relationships == s.relationships[pair := t.relationships[pair]]
    ensures |PairsAtL2(t)| == |PairsAtL2(s)| + (if t.relationships[pair].level == L2 then 1 else 0)
                                             - (if LevelOf(s, pair) == Some(L2) then 1 else 0)
  {
    var rest := PairsAtL2(s) - {pair};
    assert PairsAtL2(s) == if LevelOf(s, pair) == Some(L2) then rest + {pair} else rest;
    assert PairsAtL2(t) == if t.relationships[pair].level == L2 then rest + {pair} else rest;
  }

  // ------------------------------------------------------------------ every call keeps the invariant

  /** A change of level by one step; a promotion to L3 needs a joint session to spare. */
  lemma ShiftKeeps(s: State, pair: Pair, next: Level, admin: Option<UserId>)
    requires Inv(s) && pair in s.relationships && OneStep(Change(pair, s.relationships[pair].level, next, admin))
    requires next == L3 ==> s.relationships[pair].jointCount > Promotions(s, pair)
    ensures Inv(Shift(s, pair, next, admin))
  {
    var t := Shift(s, pair, next, admin);
    var change := Change(pair, s.relationships[pair].level, next, admin);
    forall other ensures PairOk(t, other) {
      assert PairOk(s, other);
      assert t.history[..|s.history|] == s.history;
      CountAppendChange(s.history, change, other);
    }
    forall i | 0 <= i < |t.joints| ensures JointOk(t, t.joints[i]) { assert JointOk(s, s.joints[i]); }
    CountAppendEvent(s.events, Transition(Some(change.previous), next), L2);
    CountAppendEvent(s.events, Transition(Some(change.previous), next), L3);
    CountAppendChange(s.history, change, pair);
    PairsAtL2Change(s, t, pair);
  }

  lemma NothingYet(s: State, pair: Pair)
    requires Inv(s) && pair !in s.relationships
    ensures CompletedCount(s, pair) == 0 == Promotions(s, pair)
  {
    forall i: nat | i < |s.joints| ensures !CompletedBy(s.joints, pair)(i) { assert JointOk(s, s.joints[i]); }
    CountNone(|s.joints|, CompletedBy(s.joints, pair));
    CountNone(|s.history|, Promotion(s.history, pair));
  }

  lemma GrantKeeps(s: State, a: UserId, b: UserId)
    requires Inv(s)
    ensures Inv(GrantL1(s, a, b).state)
  {
    var t, pair := GrantL1(s, a, b).state, NormalizePair(a, b);
    if pair !in s.relationships {
      forall other ensures PairOk(t, other) {
        assert PairOk(s, other);
        if other == pair { NothingYet(s, pair); }
      }
      forall i | 0 <= i < |t.joints| ensures JointOk(t, t.joints[i]) { assert JointOk(s, s.joints[i]); }
      CountAppendEvent(s.events, Transition(None, L1), L2);
      CountAppendEvent(s.events, Transition(None, L1), L3);
      PairsAtL2Change(s, t, pair);
    }
  }

  /** Edits of the joint sessions that complete none. */
  ghost predicate SameBut(s: State, t: State) {
    t == s.(joints := t.joints, required := t.required)
    && (forall user :: user in t.required ==> t.required[user] >= MIN_REQUIRED_JOINT_COUNT)
    && (forall i :: 0 <= i < |t.joints| ==> JointOk(t, t.joints[i]))
    && forall pair :: CompletedCount(t, pair) == CompletedCount(s, pair)
  }

  lemma SameButKeeps(s: State, t: State)
    requires Inv(s) && SameBut(s, t)
    ensures Inv(t)
  {
    forall pair ensures PairOk(t, pair) { assert PairOk(s, pair); }
  }

  lemma CompletedAfterUpdate(joints: seq<Joint>, id: nat, joint: Joint, pair: Pair)
    requires id < |joints| && joint.initiator == joints[id].initiator && joint.partner == joints[id].partner
    requires joints[id].completed ==> joint.completed
    ensures Count(|joints|, CompletedBy(joints[id := joint], pair)) == Count(|joints|, CompletedBy(joints, pair))
      + if joint.completed && !joints[id].completed && NormalizePair(joint.initiator, joint.partner) == pair
        then 1 else 0
  {
    CountDelta(|joints|, CompletedBy(joints, pair), CompletedBy(joints[id := joint], pair), id);
  }

  lemma ScheduleKeeps(s: State, initiator: UserId, partner: UserId)
    requires Inv(s)
    ensures Inv(ScheduleJoint(s, initiator, partner).state)
  {
    var pair := NormalizePair(initiator, partner);
    if pair in s.relationships {
      var t := s.(joints := s.joints + [Joint(initiator, partner, false, false, false)]);
      forall other ensures CompletedCount(t, other) == CompletedCount(s, other) {
        CountSame(|s.joints|, CompletedBy(s.joints, other), CompletedBy(t.joints, other));
      }
      forall i | 0 <= i < |t.joints| ensures JointOk(t, t.joints[i]) {
        if i < |s.joints| { assert JointOk(s, s.joints[i]); }
      }
      SameButKeeps(s, t);
      if s.relationships[pair].level == L1 { ShiftKeeps(t, pair, L2, None); }
    }
  }

  /** State after the count went up, before the promotion. */
  function Counted(s: State, pair: Pair): State
    requires pair in s.relationships
  {
    var counted := s.relationships[pair].(jointCount := s.relationships[pair].jointCount + 1);
    s.(relationships := s.relationships[pair := counted],
       required := WithSettings(WithSettings(s.required, pair.0), pair.1))
  }

  lemma CountedKeeps(s: State, t: State, id: nat, pair: Pair)
    requires Inv(s) && id < |s.joints| && pair == NormalizePair(s.joints[id].initiator, s.joints[id].partner)
    requires !s.joints[id].completed && pair in s.relationships
    requires var joint := s.joints[id].(byInitiator := true, byPartner := true, completed := true);
      t == Counted(s.(joints := s.joints[id := joint]), pair)
    ensures Inv(t) && t.relationships[pair].jointCount > Promotions(t, pair)
  {
    var joint := s.joints[id].(byInitiator := true, byPartner := true, completed := true);
    forall other ensures PairOk(t, other) {
      assert PairOk(s, other);
      CompletedAfterUpdate(s.joints, id, joint, other);
    }
    forall i | 0 <= i < |t.joints| ensures JointOk(t, t.joints[i]) { assert JointOk(s, s.joints[i]); }
    assert PairOk(s, pair);
    assert PairsAtL2(t) == PairsAtL2(s);
  }

  lemma ConfirmKeeps(s: State, id: int, user: UserId)
    requires Inv(s)
    ensures Inv(ConfirmJoint(s, id, user).state) && ConfirmJoint(s, id, user).reply != Crash
  {
    if 0 <= id < |s.joints| && (user == s.joints[id].initiator || user == s.joints[id].partner) {
      var joint := Confirmed(s.joints[id], user);
      assert JointOk(s, s.joints[id]);
      var pair := NormalizePair(joint.initiator, joint.partner);
      if joint.byInitiator && joint.byPartner && !joint.completed {
        var done := joint.(completed := true);
        assert done == s.joints[id].(byInitiator := true, byPartner := true, completed := true);
        var t := Counted(s.(joints := s.joints[id := done]), pair);
        CountedKeeps(s, t, id, pair);
        if t.relationships[pair].level == L2 && t.relationships[pair].jointCount >= Threshold(s, pair) {
          ShiftKeeps(t, pair, L3, None);
        }
      } else {
        var t := s.(joints := s.joints[id := joint]);
        forall other ensures CompletedCount(t, other) == CompletedCount(s, other) {
          CompletedAfterUpdate(s.joints, id, joint, other);
        }
        forall i | 0 <= i < |t.joints| ensures JointOk(t, t.joints[i]) { assert JointOk(s, s.joints[i]); }
        SameButKeeps(s, t);
      }
    }
  }

  lemma SetRequiredKeeps(s: State, user: UserId, count: int)
    requires Inv(s)
    ensures Inv(SetRequired(s, user, count).state)
  {
    var t := SetRequired(s, user, count).state;
    forall i | 0 <= i < |t.joints| ensures JointOk(t, t.joints[i]) { assert JointOk(s, s.joints[i]); }
    SameButKeeps(s, t);
  }

  lemma DemoteKeeps(s: State, isAdmin: bool, admin: UserId, a: UserId, b: UserId)
    requires Inv(s)
    ensures Inv(Demote(s, isAdmin, admin, a, b).state)
  {
    var pair := NormalizePair(a, b);
    if Demote(s, isAdmin, admin, a, b).reply == Done {
      ShiftKeeps(s, pair, if s.relationships[pair].level == L3 then L2 else L1, Some(admin));
    }
  }

  lemma {:induction false} RunKeeps(calls: seq<Call>)
    ensures Inv(Run(calls))
  {
    if calls == [] {
      assert PairsAtL2(INITIAL) == {};
    } else {
      var s := Run(calls[..|calls| - 1]);
      RunKeeps(calls[..|calls| - 1]);
      match calls[|calls| - 1]
      case CallGrantL1(a, b) => GrantKeeps(s, a, b);
      case CallScheduleJoint(initiator, partner) => ScheduleKeeps(s, initiator, partner);
      case CallConfirmJoint(id, user) => ConfirmKeeps(s, id, user);
      case CallSetRequired(user, count) => SetRequiredKeeps(s, user, count);
      case CallDemote(isAdmin, admin, a, b) => DemoteKeeps(s, isAdmin, admin, a, b);
    }
  }

  // ------------------------------------------------------------------ what every run guarantees

  ghost predicate Reached(s: State, calls: seq<Call>) { s == Run(calls) }

  /** Replaying a pair's history from L1 gives its level; every row is one step, up by the system, down by an admin. */
  lemma HistoryReplaysToLevel(s: State, calls: seq<Call>, pair: Pair)
    requires Reached(s, calls) && pair in s.relationships
    ensures Replay(s.history, pair) == LevelOf(s, pair)
    ensures forall i :: 0 <= i < |s.history| ==> OneStep(s.history[i])
  {
    RunKeeps(calls);
    assert PairOk(s, pair);
  }

  /** The count is the number of completed joint sessions of the pair, and those are the ones both parties confirmed. */
  lemma CountIsCompletedSessions(s: State, calls: seq<Call>, pair: Pair)
    requires Reached(s, calls) && pair in s.relationships
    ensures s.relationships[pair].jointCount == CompletedCount(s, pair)
    ensures forall i :: 0 <= i < |s.joints| ==>
      (s.joints[i].completed <==> s.joints[i].byInitiator && s.joints[i].byPartner)
  {
    RunKeeps(calls);
    assert PairOk(s, pair);
    forall i | 0 <= i < |s.joints| ensures s.joints[i].completed <==> s.joints[i].byInitiator && s.joints[i].byPartner {
      assert JointOk(s, s.joints[i]);
    }
  }

  /** Promotions to L3 never outnumber completed joint sessions, and a pair at L3 has one confirmed by both. */
  lemma PromotionsAreEarned(s: State, calls: seq<Call>, pair: Pair)
    requires Reached(s, calls) && pair in s.relationships
    ensures Promotions(s, pair) <= s.relationships[pair].jointCount
    ensures LevelOf(s, pair) == Some(L3) ==>
      exists i: nat :: i < |s.joints| && CompletedBy(s.joints, pair)(i)
                       && s.joints[i].byInitiator && s.joints[i].byPartner
  {
    RunKeeps(calls);
    assert PairOk(s, pair);
    CountNone(|s.joints|, CompletedBy(s.joints, pair));
    assert forall i: nat :: i < |s.joints| && CompletedBy(s.joints, pair)(i) ==> JointOk(s, s.joints[i]);
  }

  /** Whoever passes the gate for solo requests has completed a joint session with the provider, confirmed by both. */
  lemma SoloRequestsAreEarned(s: State, calls: seq<Call>, requester: UserId, provider: UserId)
    requires Reached(s, calls) && RequireL3(s, requester, provider) == Done
    ensures exists joint :: joint in s.joints && joint.byInitiator && joint.byPartner
                            && {joint.initiator, joint.partner} == {requester, provider}
  {
    var pair := NormalizePair(requester, provider);
    PromotionsAreEarned(s, calls, pair);
    var i: nat :| i < |s.joints| && CompletedBy(s.joints, pair)(i) && s.joints[i].byInitiator && s.joints[i].byPartner;
    assert s.joints[i] in s.joints;
  }

  /** `l2_to_l3_transition_rate` of the core metrics. */
  function TransitionRate(events: seq<Transition>): real { Ratio(EventsTo(events, L3), EventsTo(events, L2), 0.0) }

  /**
   * Every entry into L2 was followed by an entry into L3, by a drop to L1, or is where the pair still is; so the
   * transition rate never exceeds 1, demotions or not.
   */
  lemma TransitionRateAtMostOne(s: State, calls: seq<Call>)
    requires Reached(s, calls)
    ensures EventsTo(s.events, L2)
         == EventsTo(s.events, L3) + |PairsAtL2(s)| + Count(|s.history|, DroppedToL1(s.history))
    ensures Unit(TransitionRate(s.events))
  {
    RunKeeps(calls);
    RatioIsUnit(EventsTo(s.events, L3), EventsTo(s.events, L2), 0.0);
  }

  /** The assertion in `confirm_joint_session` cannot fail. */
  lemma NeverCrashes(s: State, calls: seq<Call>, id: int, user: UserId)
    requires Reached(s, calls)
    ensures ConfirmJoint(s, id, user).reply != Crash
  {
    RunKeeps(calls);
    ConfirmKeeps(s, id, user);
  }
}
