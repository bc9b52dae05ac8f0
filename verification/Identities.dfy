/**
 * Phone identities in auth_kit/service.py: signup, sanctions, withdrawal and the purge job, one call at a time.
 * `users.phone_hash` carries no unique constraint; `sanctioned_identities.phone_hash` does, and breaking it rolls the
 * whole call back.
 */
module Identities {
  import opened Prelude

  type UserId = nat
  type PhoneHash = string

  datatype Person = Person(
    phone: Option<PhoneHash>, sanctioned: bool, active: bool, deactivatedAt: Option<int>, purgeAt: Option<int>)

  datatype State = State(users: map<UserId, Person>, nextId: nat, sealed: set<PhoneHash>)

  const INITIAL := State(map[], 0, {})

  datatype Reply = Done | BadRequest | Forbidden | NotFound | Conflict | ServerError | IntegrityError

  datatype Result = Result(state: State, reply: Reply)

  predicate PhoneTaken(s: State, phone: PhoneHash) { exists id :: id in s.users && s.users[id].phone == Some(phone) }

  function AddUser(s: State, phone: Option<PhoneHash>): State {
    s.(users := s.users[s.nextId := Person(phone, false, true, None, None)], nextId := s.nextId + 1)
  }

  /** Terms that are unknown or not agreed to, or agreed to in an old version. */
  datatype Terms = Agreed | Missing | Outdated

  /** What the other checks of a signup answer: e-mail and phone verification, name, terms, unique columns at flush. */
  datatype Form = Form(verified: bool, nameTaken: bool, terms: Terms, flushes: bool)

  function Signup(s: State, phone: PhoneHash, form: Form): Result {
    if !form.verified then Result(s, BadRequest)
    else if form.nameTaken || PhoneTaken(s, phone) then Result(s, Conflict)
    else if phone in s.sealed then Result(s, Forbidden)
    else if form.terms != Agreed then Result(s, if form.terms == Outdated then Conflict else BadRequest)
    else if !form.flushes then Result(s, Conflict)
    else Result(AddUser(s, Some(phone)), Done)
  }

  function Guest(s: State, nicknameFound: bool): Result {
    if nicknameFound then Result(AddUser(s, None), Done) else Result(s, ServerError)
  }

  function RecordSanction(s: State, id: UserId): Result {
    if id !in s.users then Result(s, NotFound)
    else Result(s.(users := s.users[id := s.users[id].(sanctioned := true)]), Done)
  }

  /** The account leaves its phone behind when it is deleted. */
  predicate Marked(s: State, id: UserId) { id in s.users && s.users[id].sanctioned && s.users[id].phone.Some? }

  function Marks(s: State, ids: set<UserId>): set<PhoneHash> {
    set id | id in ids && Marked(s, id) :: s.users[id].phone.value
  }

  /** Sealing these accounts would write some phone twice. */
  ghost predicate SealsTwice(s: State, ids: set<UserId>) {
    || (exists id :: id in ids && Marked(s, id) && s.users[id].phone.value in s.sealed)
    || (exists i, j ::
          i in ids && j in ids && i != j && Marked(s, i) && Marked(s, j) && s.users[i].phone == s.users[j].phone)
  }

  /** Each account is sealed, then deleted; one transaction. */
  ghost function Erase(s: State, ids: set<UserId>): Result {
    if SealsTwice(s, ids) then Result(s, IntegrityError)
    else Result(s.(users := s.users - ids, sealed := s.sealed + Marks(s, ids)), Done)
  }

  ghost function Withdraw(s: State, id: UserId, passwordOk: bool, grace: int, at: int): Result {
    if id !in s.users then Result(s, NotFound)
    else if !passwordOk then Result(s, BadRequest)
    else if grace <= 0 then Erase(s, {id})
    else
      var leaving := s.users[id].(active := false, deactivatedAt := Some(at), purgeAt := Some(at + grace));
      Result(s.(users := s.users[id := leaving]), Done)
  }

  function CancelWithdrawal(s: State, id: UserId, passwordOk: bool): Result {
    if id !in s.users || !passwordOk || s.users[id].deactivatedAt.None? then Result(s, BadRequest)
    else
      var back := s.users[id].(active := true, deactivatedAt := None, purgeAt := None);
      Result(s.(users := s.users[id := back]), Done)
  }

  function Due(s: State, at: int): set<UserId> {
    set id | id in s.users && s.users[id].purgeAt.Some? && s.users[id].purgeAt.value <= at
  }

  ghost function Purge(s: State, at: int): Result { Erase(s, Due(s, at)) }

  datatype Call =
    | CallSignup(phone: PhoneHash, form: Form)
    | CallGuest(nicknameFound: bool)
    | CallSanction(id: UserId)
    | CallWithdraw(id: UserId, passwordOk: bool, grace: int, at: int)
    | CallCancel(id: UserId, passwordOk: bool)
    | CallPurge(at: int)

  ghost function Step(s: State, call: Call): Result {
    match call
    case CallSignup(phone, form) => Signup(s, phone, form)
    case CallGuest(nicknameFound) => Guest(s, nicknameFound)
    case CallSanction(id) => RecordSanction(s, id)
    case CallWithdraw(id, passwordOk, grace, at) => Withdraw(s, id, passwordOk, grace, at)
    case CallCancel(id, passwordOk) => CancelWithdrawal(s, id, passwordOk)
    case CallPurge(at) => Purge(s, at)
  }

  ghost function RunFrom(s: State, calls: seq<Call>): State {
    if calls == [] then s else Step(RunFrom(s, calls[..|calls| - 1]), calls[|calls| - 1]).state
  }

  // ------------------------------------------------------------------ invariant

  predicate SamePhone(p: Person, q: Person) { p.phone.Some? && p.phone == q.phone }

  /** Two accounts never share a phone, and no account has a sealed one. */
  ghost predicate Inv(s: State) {
    && (forall id: UserId :: id in s.users ==> id < s.nextId)
    && (forall i: UserId, j: UserId :: i in s.users && j in s.users && SamePhone(s.users[i], s.users[j]) ==> i == j)
    && (forall id: UserId :: id in s.users && s.users[id].phone.Some? ==> s.users[id].phone.value !in s.sealed)
  }

  lemma SealingIsSafe(s: State, ids: set<UserId>)
    requires Inv(s)
    ensures !SealsTwice(s, ids) && Inv(Erase(s, ids).state)
  {
    var t := Erase(s, ids).state;
    forall id: UserId | id in t.users && t.users[id].phone.Some? ensures t.users[id].phone.value !in Marks(s, ids) {
      forall gone: UserId | gone in ids && Marked(s, gone)
        ensures s.users[gone].phone.value != t.users[id].phone.value {}
    }
  }

  lemma StepKeeps(s: State, call: Call)
    requires Inv(s)
    ensures Inv(Step(s, call).state) && Step(s, call).reply != IntegrityError
  {
    match call
    case CallWithdraw(id, _, _, _) => SealingIsSafe(s, {id});
    case CallPurge(at) => SealingIsSafe(s, Due(s, at));
    case _ =>
  }

  lemma {:induction false} RunKeeps(calls: seq<Call>)
    ensures Inv(RunFrom(INITIAL, calls))
  {
    if calls == [] {
    } else {
      RunKeeps(calls[..|calls| - 1]);
      StepKeeps(RunFrom(INITIAL, calls[..|calls| - 1]), calls[|calls| - 1]);
    }
  }

  // ------------------------------------------------------------------ what every run guarantees

  ghost predicate Reached(s: State, calls: seq<Call>) { s == RunFrom(INITIAL, calls) }

  /** Live phones are pairwise distinct and disjoint from the sealed ones, and no call ever hits the constraint. */
  lemma PhonesStayDistinct(s: State, calls: seq<Call>, call: Call)
    requires Reached(s, calls)
    ensures forall i, j :: i in s.users && j in s.users && SamePhone(s.users[i], s.users[j]) ==> i == j
    ensures forall i :: i in s.users && s.users[i].phone.Some? ==> s.users[i].phone.value !in s.sealed
    ensures Step(s, call).reply != IntegrityError
  {
    RunKeeps(calls);
    StepKeeps(s, call);
  }

  /** A call seals exactly the phones of the sanctioned accounts it deletes. */
  lemma SealedExactlyOnDeletion(s: State, calls: seq<Call>, call: Call, phone: PhoneHash)
    requires Reached(s, calls)
    ensures var t := Step(s, call).state;
      && s.sealed <= t.sealed
      && (phone in t.sealed - s.sealed <==>
            exists id :: id in s.users && s.users[id].sanctioned && s.users[id].phone == Some(phone) && id !in t.users)
  {
    RunKeeps(calls);
    match call
    case CallWithdraw(id, _, _, _) => SealingIsSafe(s, {id});
    case CallPurge(at) => SealingIsSafe(s, Due(s, at));
    case _ =>
  }

  /** The sanctioned account `id` still holds the phone, or the phone is sealed. */
  ghost predicate Barred(s: State, id: UserId, phone: PhoneHash) {
    || (id in s.users && s.users[id].sanctioned && s.users[id].phone == Some(phone))
    || phone in s.sealed
  }

  lemma StepKeepsBarred(s: State, call: Call, id: UserId, phone: PhoneHash)
    requires Inv(s) && Barred(s, id, phone)
    ensures Barred(Step(s, call).state, id, phone)
  {
    match call
    case CallWithdraw(leaver, _, _, _) => SealingIsSafe(s, {leaver}); assert Marked(s, id) || phone in s.sealed;
    case CallPurge(at) => SealingIsSafe(s, Due(s, at)); assert Marked(s, id) || phone in s.sealed;
    case _ =>
  }

  lemma {:induction false} BarredForever(s: State, calls: seq<Call>, id: UserId, phone: PhoneHash)
    requires Inv(s) && Barred(s, id, phone)
    ensures Inv(RunFrom(s, calls)) && Barred(RunFrom(s, calls), id, phone)
  {
    if calls == [] {
    } else {
      var before := RunFrom(s, calls[..|calls| - 1]);
      BarredForever(s, calls[..|calls| - 1], id, phone);
      StepKeeps(before, calls[|calls| - 1]);
      StepKeepsBarred(before, calls[|calls| - 1], id, phone);
    }
  }

  /** Once an account is sanctioned its phone can never sign up again, and never belongs to another account. */
  lemma SanctionFollowsThePhone(s: State, calls: seq<Call>, later: seq<Call>, id: UserId, phone: PhoneHash, form: Form)
    requires Reached(s, calls) && id in s.users && s.users[id].sanctioned && s.users[id].phone == Some(phone)
    ensures var t := RunFrom(s, later);
      && (forall other :: other in t.users && t.users[other].phone == Some(phone) ==> other == id)
      && Signup(t, phone, form).reply != Done
  {
    RunKeeps(calls);
    BarredForever(s, later, id, phone);
  }

  /** A sealed phone stays sealed and never belongs to an account. */
  lemma SealedForGood(s: State, calls: seq<Call>, later: seq<Call>, phone: PhoneHash, form: Form)
    requires Reached(s, calls) && phone in s.sealed
    ensures var t := RunFrom(s, later);
      phone in t.sealed && !PhoneTaken(t, phone) && Signup(t, phone, form).reply != Done
  {
    RunKeeps(calls);
    BarredForever(s, later, s.nextId, phone);
    SealedStays(s, later, phone);
  }

  lemma {:induction false} SealedStays(s: State, calls: seq<Call>, phone: PhoneHash)
    requires phone in s.sealed
    ensures phone in RunFrom(s, calls).sealed
  {
    if calls == [] {
    } else {
      SealedStays(s, calls[..|calls| - 1], phone);
    }
  }

  // ------------------------------------------------------------------ what each call answers

  /** When a signup succeeds and how it is refused; it adds one account and changes nothing else. */
  lemma SignupOutcome(s: State, phone: PhoneHash, form: Form)
    ensures var Result(t, reply) := Signup(s, phone, form);
      var free := !form.nameTaken && forall id :: id in s.users ==> s.users[id].phone != Some(phone);
      && (reply == Done <==> form == Form(true, false, Agreed, true) && free && phone !in s.sealed)
      && (reply == Forbidden <==> form.verified && free && phone in s.sealed)
      && (reply == BadRequest <==> !form.verified || (free && phone !in s.sealed && form.terms == Missing))
      && (reply == Conflict <==>
            form.verified && (!free || (phone !in s.sealed && form.terms != Missing
                                        && (form.terms == Outdated || !form.flushes))))
      && (reply != Done ==> t == s)
      && (reply == Done ==>
            t == State(s.users[s.nextId := Person(Some(phone), false, true, None, None)], s.nextId + 1, s.sealed))
  {}

  /** Guests have no phone; a sanction marks an account, whatever else is known of it. */
  lemma GuestAndSanctionOutcome(s: State, nicknameFound: bool, id: UserId)
    ensures Guest(s, nicknameFound)
         == if !nicknameFound then Result(s, ServerError)
            else Result(State(s.users[s.nextId := Person(None, false, true, None, None)], s.nextId + 1, s.sealed), Done)
    ensures var Result(t, reply) := RecordSanction(s, id);
      && reply == (if id in s.users then Done else NotFound) && t.users.Keys == s.users.Keys
      && t == s.(users := t.users)
      && forall other :: other in s.users ==>
           t.users[other] == if other == id then s.users[other].(sanctioned := true) else s.users[other]
  {}

  /**
   * The right password deactivates the account for the grace period, or deletes it when there is none; it can be
   * brought back until it is deleted.
   */
  lemma WithdrawalOutcome(s: State, calls: seq<Call>, id: UserId, passwordOk: bool, grace: int, at: int)
    requires Reached(s, calls)
    ensures var Result(t, reply) := Withdraw(s, id, passwordOk, grace, at);
      && reply == (if id !in s.users then NotFound else if passwordOk then Done else BadRequest)
      && (reply != Done ==> t == s)
      && (reply == Done && grace <= 0 ==> t.users == map other | other in s.users && other != id :: s.users[other])
      && (reply == Done && grace > 0 ==>
            var p := s.users[id];
            t == s.(users := s.users[id := Person(p.phone, p.sanctioned, false, Some(at), Some(at + grace))]))
    ensures var Result(t, reply) := CancelWithdrawal(s, id, passwordOk);
      && reply == (if id in s.users && passwordOk && s.users[id].deactivatedAt.Some? then Done else BadRequest)
      && (reply != Done ==> t == s)
      && (reply == Done ==>
            var p := s.users[id];
            t == s.(users := s.users[id := Person(p.phone, p.sanctioned, true, None, None)]))
  {
    RunKeeps(calls);
    SealingIsSafe(s, {id});
  }

  /** The purge deletes exactly the accounts whose time has come, and always goes through. */
  lemma PurgeOutcome(s: State, calls: seq<Call>, at: int)
    requires Reached(s, calls)
    ensures var Result(t, reply) := Purge(s, at);
      && reply == Done && t.nextId == s.nextId
      && t.users == map id | id in s.users && !(s.users[id].purgeAt.Some? && s.users[id].purgeAt.value <= at)
                      :: s.users[id]
  {
    RunKeeps(calls);
    SealingIsSafe(s, Due(s, at));
  }

  // ------------------------------------------------------------------ the calls behind a run

  /** The user asked to leave, with the right password, at the time and for the grace period given. */
  predicate AskedToLeave(calls: seq<Call>, id: UserId, grace: int, at: int) {
    CallWithdraw(id, true, grace, at) in calls
  }

  /** Phone, sanction and pending deletion each have their call; everybody else is active. */
  ghost predicate Explained(calls: seq<Call>, id: UserId, p: Person) {
    && (p.phone.Some? ==> exists form :: CallSignup(p.phone.value, form) in calls)
    && (p.sanctioned ==> CallSanction(id) in calls)
    && (p.active <==> p.purgeAt.None?) && (p.deactivatedAt.None? <==> p.purgeAt.None?)
    && (p.purgeAt.Some? ==>
          exists grace, at :: AskedToLeave(calls, id, grace, at) && grace > 0
                              && p.deactivatedAt == Some(at) && p.purgeAt == Some(at + grace))
  }

  /** The user asked to leave, and had to wait for a purge after the grace period if there was one. */
  ghost predicate Left(calls: seq<Call>, id: UserId) {
    exists grace, at :: AskedToLeave(calls, id, grace, at)
                        && (grace <= 0 || exists later :: CallPurge(later) in calls && at + grace <= later)
  }

  lemma ExplainedLater(rest: seq<Call>, last: Call, id: UserId, p: Person)
    requires Explained(rest, id, p)
    ensures Explained(rest + [last], id, p)
  {
    if p.purgeAt.Some? {
      var grace, at :| AskedToLeave(rest, id, grace, at) && grace > 0
                       && p.deactivatedAt == Some(at) && p.purgeAt == Some(at + grace);
      assert AskedToLeave(rest + [last], id, grace, at);
    }
  }

  lemma LeftLater(rest: seq<Call>, last: Call, id: UserId)
    requires Left(rest, id)
    ensures Left(rest + [last], id)
  {
    var grace, at :| AskedToLeave(rest, id, grace, at)
                     && (grace <= 0 || exists later :: CallPurge(later) in rest && at + grace <= later);
    assert AskedToLeave(rest + [last], id, grace, at);
    if grace > 0 {
      var later :| CallPurge(later) in rest && at + grace <= later;
      assert CallPurge(later) in rest + [last];
    }
  }

  /** A row that is new or changed is explained by the call that did it. */
  lemma StepExplains(s: State, rest: seq<Call>, last: Call, id: UserId)
    requires Inv(s) && id in Step(s, last).state.users
    requires id in s.users ==> Explained(rest, id, s.users[id])
    ensures Explained(rest + [last], id, Step(s, last).state.users[id])
  {
    if id in s.users { ExplainedLater(rest, last, id, s.users[id]); }
    match last
    case CallWithdraw(who, passwordOk, grace, at) =>
      if who == id && passwordOk && grace > 0 { assert AskedToLeave(rest + [last], id, grace, at); }
    case CallSignup(phone, form) => assert CallSignup(phone, form) in rest + [last];
    case _ =>
  }

  lemma StepLeaves(s: State, rest: seq<Call>, last: Call, id: UserId)
    requires Inv(s) && id in s.users && id !in Step(s, last).state.users && Explained(rest, id, s.users[id])
    ensures Left(rest + [last], id)
  {
    SealingIsSafe(s, {id});
    match last
    case CallWithdraw(_, _, grace, at) => assert AskedToLeave(rest + [last], id, grace, at);
    case CallPurge(later) =>
      var grace, at :| AskedToLeave(rest, id, grace, at) && s.users[id].purgeAt == Some(at + grace);
      assert AskedToLeave(rest + [last], id, grace, at) && CallPurge(later) in rest + [last];
    case _ =>
  }

  /**
   * In every run an account has its phone from a signup, its sanction from a call that recorded it and its pending
   * deletion from its own withdrawal; and an account that is gone was withdrawn, and waited for if there was a grace
   * period.
   */
  lemma {:induction false} AccountsHaveCalls(calls: seq<Call>, id: UserId)
    ensures var s := RunFrom(INITIAL, calls);
      && (id in s.users ==> Explained(calls, id, s.users[id]))
      && (id < s.nextId && id !in s.users ==> Left(calls, id))
  {
    if calls == [] {
    } else {
      var rest, last := calls[..|calls| - 1], calls[|calls| - 1];
      var s, t := RunFrom(INITIAL, rest), RunFrom(INITIAL, calls);
      AccountsHaveCalls(rest, id);
      RunKeeps(rest);
      assert calls == rest + [last];
      if id in t.users {
        StepExplains(s, rest, last, id);
      } else if id in s.users {
        StepLeaves(s, rest, last, id);
      } else if id < s.nextId {
        LeftLater(rest, last, id);
      }
    }
  }

  // ------------------------------------------------------------------ the service

  /** `rows` is the answer of the query, in whatever order. */
  predicate Lists(rows: seq<UserId>, ids: set<UserId>) {
    && (forall k :: 0 <= k < |rows| ==> rows[k] in ids)
    && (forall id :: id in ids ==> id in rows)
    && (forall i, j :: 0 <= i < j < |rows| ==> rows[i] != rows[j])
  }

  class AuthService {
    var users: map<UserId, Person>
    var nextId: nat
    var sealed: set<PhoneHash>

    function Value(): State
      reads this
    {
      State(users, nextId, sealed)
    }

    constructor ()
      ensures Value() == INITIAL
    {
      users, nextId, sealed := map[], 0, {};
    }

    method SignUp(phone: PhoneHash, form: Form) returns (reply: Reply)
      modifies this
      ensures Result(Value(), reply) == Signup(old(Value()), phone, form)
    {
      if !form.verified { return BadRequest; }
      if form.nameTaken { return Conflict; }
      if PhoneTaken(Value(), phone) { return Conflict; }
      if phone in sealed { return Forbidden; }
      if form.terms == Outdated { return Conflict; }
      if form.terms == Missing { return BadRequest; }
      if !form.flushes { return Conflict; }
      users := users[nextId := Person(Some(phone), false, true, None, None)];
      nextId := nextId + 1;
      reply := Done;
    }

    method RecordSanctionOf(id: UserId) returns (reply: Reply)
      modifies this
      ensures Result(Value(), reply) == RecordSanction(old(Value()), id)
    {
      if id !in users { return NotFound; }
      users := users[id := users[id].(sanctioned := true)];
      reply := Done;
    }

    method WithdrawAccount(id: UserId, passwordOk: bool, grace: int, at: int) returns (reply: Reply)
      modifies this
      ensures Result(Value(), reply) == Withdraw(old(Value()), id, passwordOk, grace, at)
    {
      if id !in users { return NotFound; }
      if !passwordOk { return BadRequest; }
      if grace <= 0 {
        ghost var before := Value();
        var user := users[id];
        if user.sanctioned && user.phone.Some? {
          assert Marked(before, id) && Marks(before, {id}) == {user.phone.value};
          if user.phone.value in sealed { return IntegrityError; }
          sealed := sealed + {user.phone.value};
        }
        users := users - {id};
      } else {
        users := users[id := users[id].(active := false, deactivatedAt := Some(at), purgeAt := Some(at + grace))];
      }
      reply := Done;
    }

    method CancelWithdrawalOf(id: UserId, passwordOk: bool) returns (reply: Reply)
      modifies this
      ensures Result(Value(), reply) == CancelWithdrawal(old(Value()), id, passwordOk)
    {
      if id !in users || !passwordOk { return BadRequest; }
      if users[id].deactivatedAt.None? { return BadRequest; }
      users := users[id := users[id].(active := true, deactivatedAt := None, purgeAt := None)];
      reply := Done;
    }

    /** Accounts are sealed and deleted one at a time; a broken constraint leaves everything as it was. */
    method PurgeDeactivated(rows: seq<UserId>, at: int) returns (reply: Reply)
      requires Lists(rows, Due(Value(), at))
      modifies this
      ensures Result(Value(), reply) == Purge(old(Value()), at)
    {
      ghost var before := Value();
      var kept, seals := users, sealed;
      for i := 0 to |rows|
        invariant Value() == before
        invariant kept == users - Firsts(rows, i)
        invariant seals == sealed + Marks(before, Firsts(rows, i))
        invariant !SealsTwice(before, Firsts(rows, i))
      {
        var user := users[rows[i]];
        if user.sanctioned && user.phone.Some? {
          if user.phone.value in seals { return IntegrityError; }
          seals := seals + {user.phone.value};
        }
        kept := kept - {rows[i]};
      }
      assert Firsts(rows, |rows|) == Due(before, at);
      users, sealed := kept, seals;
      reply := Done;
    }
  }

  function Firsts(rows: seq<UserId>, n: nat): set<UserId>
    requires n <= |rows|
  {
    set k | 0 <= k < n :: rows[k]
  }
}
