/** Trust levels between pairs of users: tables, service calls and what they keep. */
module TrustModel {
  import opened Prelude

  type UserId = int
  type Pair = (UserId, UserId)

  const DEFAULT_REQUIRED_JOINT_COUNT := 3
  const MIN_REQUIRED_JOINT_COUNT := 1

  datatype Level = L1 | L2 | L3

  datatype Relationship = Relationship(level: Level, jointCount: int)

  datatype Joint = Joint(initiator: UserId, partner: UserId, byInitiator: bool, byPartner: bool, completed: bool)

  /** A history row; `admin` is the administrator of a demotion. */
  datatype Change = Change(pair: Pair, previous: Level, next: Level, admin: Option<UserId>)

  /** The payload of a transition event. */
  datatype Transition = Transition(previous: Option<Level>, next: Level)

  datatype State = State(
    relationships: map<Pair, Relationship>, joints: seq<Joint>, required: map<UserId, int>,
    history: seq<Change>, events: seq<Transition>)

  const INITIAL := State(map[], [], map[], [], [])

  /** `Crash` is the failed assertion in `confirm_joint_session`. */
  datatype Reply = Done | BadRequest | Forbidden | NotFound | Crash

  datatype Result = Result(state: State, reply: Reply)

  function NormalizePair(a: UserId, b: UserId): Pair { if a < b then (a, b) else (b, a) }

  function LevelOf(s: State, pair: Pair): Option<Level> {
    if pair in s.relationships then Some(s.relationships[pair].level) else None
  }

  /** Row and event of a level change, together with the new level. */
  function Shift(s: State, pair: Pair, next: Level, admin: Option<UserId>): State
    requires pair in s.relationships
  {
    var previous := s.relationships[pair].level;
    s.(relationships := s.relationships[pair := s.relationships[pair].(level := next)],
       history := s.history + [Change(pair, previous, next, admin)],
       events := s.events + [Transition(Some(previous), next)])
  }

  function RequireL3(s: State, requester: UserId, provider: UserId): Reply {
    if LevelOf(s, NormalizePair(requester, provider)) == Some(L3) then Done else Forbidden
  }

  function GrantL1(s: State, a: UserId, b: UserId): Result {
    var pair := NormalizePair(a, b);
    if pair in s.relationships then Result(s, Done)
    else
      Result(s.(relationships := s.relationships[pair := Relationship(L1, 0)],
                events := s.events + [Transition(None, L1)]), Done)
  }

  function ScheduleJoint(s: State, initiator: UserId, partner: UserId): Result {
    var pair := NormalizePair(initiator, partner);
    if pair !in s.relationships then Result(s, NotFound)
    else
      var added := s.(joints := s.joints + [Joint(initiator, partner, false, false, false)]);
      Result(if s.relationships[pair].level == L1 then Shift(added, pair, L2, None) else added, Done)
  }

  function RequiredOf(required: map<UserId, int>, user: UserId): int {
    if user in required then required[user] else DEFAULT_REQUIRED_JOINT_COUNT
  }

  /** `get_or_create` on the settings. */
  function WithSettings(required: map<UserId, int>, user: UserId): map<UserId, int> {
    required[user := RequiredOf(required, user)]
  }

  function Threshold(s: State, pair: Pair): int {
    Max(RequiredOf(s.required, pair.0), RequiredOf(s.required, pair.1))
  }

  /** One more completed joint session, and a promotion when that was the last one needed. */
  function CountJoint(s: State, pair: Pair): State
    requires pair in s.relationships
  {
    var counted := s.relationships[pair].(jointCount := s.relationships[pair].jointCount + 1);
    var t := s.(relationships := s.relationships[pair := counted],
                required := WithSettings(WithSettings(s.required, pair.0), pair.1));
    if counted.level == L2 && counted.jointCount >= Threshold(s, pair) then Shift(t, pair, L3, None) else t
  }

  function Confirmed(joint: Joint, user: UserId): Joint {
    if user == joint.initiator then joint.(byInitiator := true) else joint.(byPartner := true)
  }

  function ConfirmJoint(s: State, id: int, user: UserId): Result {
    if !(0 <= id < |s.joints|) then Result(s, NotFound)
    else if user != s.joints[id].initiator && user != s.joints[id].partner then Result(s, Forbidden)
    else
      var joint := Confirmed(s.joints[id], user);
      if joint.byInitiator && joint.byPartner && !joint.completed then
        var pair := NormalizePair(joint.initiator, joint.partner);
        if pair !in s.relationships then Result(s, Crash)
        else Result(CountJoint(s.(joints := s.joints[id := joint.(completed := true)]), pair), Done)
      else Result(s.(joints := s.joints[id := joint]), Done)
  }

  function SetRequired(s: State, user: UserId, count: int): Result {
    if count < MIN_REQUIRED_JOINT_COUNT then Result(s, BadRequest)
    else Result(s.(required := s.required[user := count]), Done)
  }

  function Demote(s: State, isAdmin: bool, admin: UserId, a: UserId, b: UserId): Result {
    var pair := NormalizePair(a, b);
    if !isAdmin then Result(s, Forbidden)
    else if pair !in s.relationships then Result(s, NotFound)
    else if s.relationships[pair].level == L1 then Result(s, BadRequest)
    else Result(Shift(s, pair, if s.relationships[pair].level == L3 then L2 else L1, Some(admin)), Done)
  }

  datatype Call =
    | CallGrantL1(a: UserId, b: UserId)
    | CallScheduleJoint(initiator: UserId, partner: UserId)
    | CallConfirmJoint(id: int, user: UserId)
    | CallSetRequired(user: UserId, count: int)
    | CallDemote(isAdmin: bool, admin: UserId, a: UserId, b: UserId)

  function Step(s: State, call: Call): Result {
    match call
    case CallGrantL1(a, b) => GrantL1(s, a, b)
    case CallScheduleJoint(initiator, partner) => ScheduleJoint(s, initiator, partner)
    case CallConfirmJoint(id, user) => ConfirmJoint(s, id, user)
    case CallSetRequired(user, count) => SetRequired(s, user, count)
    case CallDemote(isAdmin, admin, a, b) => Demote(s, isAdmin, admin, a, b)
  }

  function Run(calls: seq<Call>): State {
    if calls == [] then INITIAL else Step(Run(calls[..|calls| - 1]), calls[|calls| - 1]).state
  }
}
