/** Refresh-token rotation in auth_kit/service.py. Token ids are numbered in the order they are issued. */
module RefreshTokens {
  type UserId = int
  type Jti = nat

  datatype Row = Row(user: UserId, revoked: bool)

  /**
   * `rows` is the table. The rest is not stored by the code but read off its history: how many tokens were issued,
   * which session-issuing event each token descends from, and which tokens were exchanged for a new one.
   */
  datatype State = State(rows: map<Jti, Row>, issued: nat, root: map<Jti, Jti>, rotated: seq<Jti>)

  const INITIAL := State(map[], 0, map[], [])

  datatype Reply = Done | Unauthorized

  datatype Result = Result(state: State, reply: Reply)

  /** `_issue_tokens`: a fresh live row. */
  function IssueWith(s: State, user: UserId, root: Jti): State {
    s.(rows := s.rows[s.issued := Row(user, false)], issued := s.issued + 1, root := s.root[s.issued := root])
  }

  /** Login, signup, social or guest login, cancelled withdrawal. */
  function Issue(s: State, user: UserId): State { IssueWith(s, user, s.issued) }

  function RevokeAll(s: State, user: UserId): State {
    s.(rows := map jti | jti in s.rows ::
         if s.rows[jti].user == user then s.rows[jti].(revoked := true) else s.rows[jti])
  }

  function RootOf(s: State, jti: Jti): Jti { if jti in s.root then s.root[jti] else jti }

  /** The presented row is revoked and noted as exchanged. */
  function Use(s: State, jti: Jti): State
    requires jti in s.rows
  {
    s.(rows := s.rows[jti := s.rows[jti].(revoked := true)], rotated := s.rotated + [jti])
  }

  /** `usable`: the user exists, is active and not deactivated. */
  function Rotate(s: State, jti: Jti, usable: bool): Result {
    if jti !in s.rows then Result(s, Unauthorized)
    else if s.rows[jti].revoked then Result(RevokeAll(s, s.rows[jti].user), Unauthorized)
    else if !usable then Result(s, Unauthorized)
    else Result(IssueWith(Use(s, jti), s.rows[jti].user, RootOf(s, jti)), Done)
  }

  function Logout(s: State, jti: Jti): State {
    if jti in s.rows then s.(rows := s.rows[jti := s.rows[jti].(revoked := true)]) else s
  }

  /** `purge_expired_tokens`: some rows are deleted. */
  function Purge(s: State, expired: set<Jti>): State { s.(rows := s.rows - expired) }

  datatype Call =
    | CallIssue(user: UserId)
    | CallRotate(jti: Jti, usable: bool)
    | CallLogout(jti: Jti)
    | CallRevokeAll(user: UserId)
    | CallPurge(expired: set<Jti>)

  function Step(s: State, call: Call): State {
    match call
    case CallIssue(user) => Issue(s, user)
    case CallRotate(jti, usable) => Rotate(s, jti, usable).state
    case CallLogout(jti) => Logout(s, jti)
    case CallRevokeAll(user) => RevokeAll(s, user)
    case CallPurge(expired) => Purge(s, expired)
  }

  function RunFrom(s: State, calls: seq<Call>): State {
    if calls == [] then s else Step(RunFrom(s, calls[..|calls| - 1]), calls[|calls| - 1])
  }

  // ------------------------------------------------------------------ invariants

  predicate Live(s: State, jti: Jti) { jti in s.rows && !s.rows[jti].revoked }

  /** Issued and no longer usable. */
  predicate Dead(s: State, jti: Jti) { jti < s.issued && !Live(s, jti) }

  /** Ids in the table were issued; every issued token descends, at any remove, from one event's first token. */
  ghost predicate Numbered(s: State) {
    && (forall jti: Jti :: jti in s.rows ==> jti < s.issued)
    && (forall jti: Jti :: jti in s.root <==> jti < s.issued)
    && (forall jti: Jti :: jti in s.root ==> RootOf(s, jti) <= jti && RootOf(s, RootOf(s, jti)) == RootOf(s, jti))
  }

  ghost predicate OneLive(s: State) {
    forall i: Jti, j: Jti :: Live(s, i) && Live(s, j) && RootOf(s, i) == RootOf(s, j) ==> i == j
  }

  ghost predicate RotatedOnce(s: State) {
    && (forall k :: 0 <= k < |s.rotated| ==> Dead(s, s.rotated[k]))
    && (forall i, j :: 0 <= i < j < |s.rotated| ==> s.rotated[i] != s.rotated[j])
  }

  ghost predicate Inv(s: State) { Numbered(s) && OneLive(s) && RotatedOnce(s) }

  /** No row and no life is added, and nothing is issued. */
  ghost predicate Shrinks(s: State, t: State) {
    && t.issued == s.issued && t.root == s.root
    && (forall jti: Jti :: jti in t.rows ==> jti in s.rows)
    && (forall jti: Jti :: Live(t, jti) ==> Live(s, jti))
  }

  lemma ShrinkKeeps(s: State, t: State)
    requires Inv(s) && Shrinks(s, t) && t.rotated == s.rotated
    ensures Inv(t)
  {
    forall i: Jti, j: Jti | Live(t, i) && Live(t, j) && RootOf(t, i) == RootOf(t, j) ensures i == j {
      assert Live(s, i) && Live(s, j) && RootOf(s, i) == RootOf(s, j);
    }
  }

  lemma UseKeeps(s: State, jti: Jti)
    requires Inv(s) && Live(s, jti)
    ensures Inv(Use(s, jti)) && Shrinks(s, Use(s, jti)) && Dead(Use(s, jti), jti)
  {
    var t := Use(s, jti);
    assert Shrinks(s, t);
    forall i: Jti, j: Jti | Live(t, i) && Live(t, j) && RootOf(t, i) == RootOf(t, j) ensures i == j {
      assert Live(s, i) && Live(s, j) && RootOf(s, i) == RootOf(s, j);
    }
    forall k | 0 <= k < |t.rotated| ensures Dead(t, t.rotated[k]) {
      if k < |s.rotated| { assert Dead(s, s.rotated[k]); }
    }
  }

  /** A token may be issued into a lineage that has no live one. */
  lemma IssueKeeps(s: State, user: UserId, root: Jti)
    requires Inv(s) && (root == s.issued || (root in s.root && RootOf(s, root) == root))
    requires forall i: Jti :: Live(s, i) ==> RootOf(s, i) != root
    ensures Inv(IssueWith(s, user, root))
  {
    var t := IssueWith(s, user, root);
    forall jti: Jti | jti in t.root
      ensures RootOf(t, jti) <= jti && RootOf(t, RootOf(t, jti)) == RootOf(t, jti)
    {
      if jti != s.issued { assert jti in s.root && RootOf(s, jti) < s.issued; }
    }
    forall i: Jti, j: Jti | Live(t, i) && Live(t, j) && RootOf(t, i) == RootOf(t, j) ensures i == j {
      IssueAddsOneLife(s, user, root, i);
      IssueAddsOneLife(s, user, root, j);
    }
    forall k | 0 <= k < |t.rotated| ensures Dead(t, t.rotated[k]) { assert Dead(s, s.rotated[k]); }
  }

  lemma IssueAddsOneLife(s: State, user: UserId, root: Jti, jti: Jti)
    ensures var t := IssueWith(s, user, root);
      && (Live(t, jti) <==> jti == s.issued || Live(s, jti))
      && RootOf(t, jti) == if jti == s.issued then root else RootOf(s, jti)
  {}

  /** A dead token stays dead, whatever happens. */
  lemma DeadStaysDead(s: State, call: Call, jti: Jti)
    requires Inv(s) && Dead(s, jti)
    ensures Dead(Step(s, call), jti)
  {}

  lemma RotateKeeps(s: State, jti: Jti)
    requires Inv(s) && Live(s, jti)
    ensures Inv(Rotate(s, jti, true).state)
  {
    UseKeeps(s, jti);
    var used, root := Use(s, jti), RootOf(s, jti);
    forall i: Jti | Live(used, i) ensures RootOf(used, i) != root {
      assert Live(s, i) && RootOf(s, i) == RootOf(used, i);
    }
    IssueKeeps(used, s.rows[jti].user, root);
  }

  lemma StepKeeps(s: State, call: Call)
    requires Inv(s)
    ensures Inv(Step(s, call))
  {
    match call
    case CallIssue(user) => IssueKeeps(s, user, s.issued);
    case CallRotate(jti, usable) =>
      if Live(s, jti) && usable { RotateKeeps(s, jti); } else { ShrinkKeeps(s, Step(s, call)); }
    case CallLogout(_) => ShrinkKeeps(s, Step(s, call));
    case CallRevokeAll(_) => ShrinkKeeps(s, Step(s, call));
    case CallPurge(_) => ShrinkKeeps(s, Step(s, call));
  }

  lemma {:induction false} RunKeeps(calls: seq<Call>)
    ensures Inv(RunFrom(INITIAL, calls))
  {
    if calls == [] {
    } else {
      RunKeeps(calls[..|calls| - 1]);
      StepKeeps(RunFrom(INITIAL, calls[..|calls| - 1]), calls[|calls| - 1]);
    }
  }

  lemma {:induction false} DeadForever(s: State, calls: seq<Call>, jti: Jti)
    requires Inv(s) && Dead(s, jti)
    ensures Inv(RunFrom(s, calls)) && Dead(RunFrom(s, calls), jti)
  {
    if calls == [] {
    } else {
      DeadForever(s, calls[..|calls| - 1], jti);
      StepKeeps(RunFrom(s, calls[..|calls| - 1]), calls[|calls| - 1]);
      DeadStaysDead(RunFrom(s, calls[..|calls| - 1]), calls[|calls| - 1], jti);
    }
  }

  // ------------------------------------------------------------------ what every run guarantees

  ghost predicate Reached(s: State, calls: seq<Call>) { s == RunFrom(INITIAL, calls) }

  /** The tokens descending from one session-issuing event: at most one of them is live. */
  lemma OneLiveTokenPerLineage(s: State, calls: seq<Call>, i: Jti, j: Jti)
    requires Reached(s, calls) && Live(s, i) && Live(s, j) && RootOf(s, i) == RootOf(s, j)
    ensures i == j
  {
    RunKeeps(calls);
  }

  /** No token is ever exchanged twice. */
  lemma NoTokenRotatesTwice(s: State, calls: seq<Call>)
    requires Reached(s, calls)
    ensures forall i, j :: 0 <= i < j < |s.rotated| ==> s.rotated[i] != s.rotated[j]
  {
    RunKeeps(calls);
  }

  /** A rotation succeeds exactly on a live token of a usable account, and hands the lineage on to the new token. */
  lemma RotationHandsOn(s: State, calls: seq<Call>, jti: Jti, usable: bool)
    requires Reached(s, calls)
    ensures var Result(t, reply) := Rotate(s, jti, usable);
      && (reply == Done <==> Live(s, jti) && usable)
      && (reply == Done ==> Dead(t, jti) && Live(t, s.issued) && RootOf(t, s.issued) == RootOf(s, jti)
                            && t.rows[s.issued].user == s.rows[jti].user && t.rotated == s.rotated + [jti])
      && (reply != Done ==> t.issued == s.issued && t.rotated == s.rotated)
  {
    RunKeeps(calls);
  }

  /** A token is issued by the call: for the user, or for the user of the token that is exchanged. */
  predicate Issues(s: State, call: Call, user: UserId) {
    || call == CallIssue(user)
    || (call.CallRotate? && call.usable && Live(s, call.jti) && s.rows[call.jti].user == user)
  }

  /**
   * What ends a live token: being exchanged or logged out itself, a revoked token of its user being presented, all
   * tokens of its user being revoked, and being purged.
   */
  predicate EndsToken(s: State, call: Call, jti: Jti)
    requires jti in s.rows
  {
    match call
    case CallIssue(_) => false
    case CallRotate(used, usable) =>
      && used in s.rows
      && if s.rows[used].revoked then s.rows[used].user == s.rows[jti].user else usable && used == jti
    case CallLogout(gone) => gone == jti
    case CallRevokeAll(user) => user == s.rows[jti].user
    case CallPurge(expired) => jti in expired
  }

  /**
   * After any call a token is live exactly when it is the one just issued or was live and is not ended by the call.
   * Rows are only added for issued tokens and only deleted by a purge, and they keep their user. A token descends from
   * itself when it is not exchanged for another one.
   */
  lemma LiveExactly(s: State, calls: seq<Call>, call: Call, jti: Jti)
    requires Reached(s, calls)
    ensures var t, issued := Step(s, call), jti == s.issued && exists user :: Issues(s, call, user);
      && (Live(t, jti) <==> issued || (Live(s, jti) && !EndsToken(s, call, jti)))
      && (jti in t.rows <==> issued || (jti in s.rows && !(call.CallPurge? && jti in call.expired)))
      && (jti in t.rows && jti in s.rows ==> t.rows[jti].user == s.rows[jti].user)
      && (jti in t.rows && issued ==> Issues(s, call, t.rows[jti].user))
      && (call.CallIssue? && issued ==> RootOf(t, jti) == jti)
      && (jti < s.issued ==> RootOf(t, jti) == RootOf(s, jti))
  {
    RunKeeps(calls);
    if call.CallIssue? { assert Issues(s, call, call.user); }
    if call.CallRotate? && call.usable && Live(s, call.jti) { assert Issues(s, call, s.rows[call.jti].user); }
  }

  /** A revoked token of the user is presented, or all tokens of the user are revoked. */
  predicate EndsSessions(s: State, trigger: Call, user: UserId) {
    || trigger == CallRevokeAll(user)
    || (trigger.CallRotate? && trigger.jti in s.rows && s.rows[trigger.jti].revoked && s.rows[trigger.jti].user == user)
  }

  /** From then on no token the user held ever rotates again, however the run goes on. */
  lemma ReuseEndsAllSessions(s: State, calls: seq<Call>, trigger: Call, later: seq<Call>, jti: Jti, usable: bool)
    requires Reached(s, calls) && jti in s.rows && EndsSessions(s, trigger, s.rows[jti].user)
    ensures Rotate(RunFrom(Step(s, trigger), later), jti, usable).reply == Unauthorized
  {
    RunKeeps(calls);
    StepKeeps(s, trigger);
    DeadForever(Step(s, trigger), later, jti);
  }

  // ------------------------------------------------------------------ the table

  class TokenTable {
    var rows: map<Jti, Row>
    var issued: nat
    ghost var root: map<Jti, Jti>
    ghost var rotated: seq<Jti>

    ghost function Value(): State
      reads this
    {
      State(rows, issued, root, rotated)
    }

    constructor ()
      ensures Value() == INITIAL
    {
      rows, issued, root, rotated := map[], 0, map[], [];
    }

    method IssueToken(user: UserId, ghost from: Jti) returns (jti: Jti)
      modifies this
      ensures Value() == IssueWith(old(Value()), user, from) && jti == old(issued)
    {
      jti := issued;
      rows := rows[jti := Row(user, false)];
      root := root[jti := from];
      issued := issued + 1;
    }

    method RevokeAllForUser(user: UserId)
      modifies this
      ensures Value() == RevokeAll(old(Value()), user)
    {
      rows := map jti | jti in rows :: if rows[jti].user == user then rows[jti].(revoked := true) else rows[jti];
    }

    method RotateToken(jti: Jti, usable: bool) returns (reply: Reply, next: Jti)
      modifies this
      ensures Result(Value(), reply) == Rotate(old(Value()), jti, usable)
      ensures reply == Done ==> next == old(issued)
    {
      if jti !in rows { return Unauthorized, jti; }
      if rows[jti].revoked {
        RevokeAllForUser(rows[jti].user);
        return Unauthorized, jti;
      }
      if !usable { return Unauthorized, jti; }
      rows := rows[jti := rows[jti].(revoked := true)];
      rotated := rotated + [jti];
      next := IssueToken(rows[jti].user, RootOf(Value(), jti));
      reply := Done;
    }

    method LogoutToken(jti: Jti)
      modifies this
      ensures Value() == Logout(old(Value()), jti)
    {
      if jti in rows && !rows[jti].revoked {
        rows := rows[jti := rows[jti].(revoked := true)];
      }
    }
  }
}
