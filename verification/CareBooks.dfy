/**
 * The books: accounts, holds and ledger, tied to the sessions. Every service step either leaves them alone or makes
 * one move on one session, and a move keeps them balanced.
 */
module CareBooks {
  import opened Prelude
  import opened CareModel

  // ------------------------------------------------------------------ what a session has moved

  /** Points that went from requester to provider on account of a session. */
  function Paid(s: State, id: nat): int {
    if id >= |s.sessions| then 0
    else
      var care, found := s.sessions[id], FindHold(s.holds, id);
      if care.checkoutAt.Some? then
        Max(0, if found.Some? then Min(RawSlots(care), care.Length()) else RawSlots(care))
      else if found.Some? && s.holds[found.value].status == Forfeited then care.Length()
      else 0
  }

  /**
   * Points the requester got out of nothing when a session with a hold was settled for a negative number of slots,
   * which takes a check-out before the check-in.
   */
  function Windfall(s: State, id: nat): int {
    if id < |s.sessions| && s.sessions[id].checkoutAt.Some? && FindHold(s.holds, id).Some?
    then Max(0, -RawSlots(s.sessions[id])) else 0
  }

  function WindfallTerms(s: State, user: UserId): nat -> int {
    (id: nat) => if id < |s.sessions| && s.sessions[id].requester == user then Windfall(s, id) else 0
  }

  function FlowTerms(s: State, user: UserId): nat -> int {
    (id: nat) =>
      if id >= |s.sessions| then 0
      else (if s.sessions[id].provider == user then Paid(s, id) else 0)
           - (if s.sessions[id].requester == user then Paid(s, id) else 0)
  }

  function EntryTerms(entries: seq<Entry>, user: UserId): nat -> int {
    (i: nat) => if i < |entries| && entries[i].user == user then entries[i].amount else 0
  }

  function HeldTerms(holds: seq<Hold>, user: UserId): nat -> int {
    (i: nat) => if i < |holds| && holds[i].status == Held && holds[i].payer == user then holds[i].amount else 0
  }

  function Referring(transactions: seq<Transaction>, id: SessionId): nat -> bool {
    (i: nat) => i < |transactions| && Refers(transactions[i], id)
  }

  function Flow(s: State, user: UserId): int { Sum(|s.sessions|, FlowTerms(s, user)) }

  function Windfalls(s: State, user: UserId): int { Sum(|s.sessions|, WindfallTerms(s, user)) }

  function EntrySum(entries: seq<Entry>, user: UserId): int { Sum(|entries|, EntryTerms(entries, user)) }

  function HeldSum(holds: seq<Hold>, user: UserId): int { Sum(|holds|, HeldTerms(holds, user)) }

  function References(transactions: seq<Transaction>, id: SessionId): nat {
    Count(|transactions|, Referring(transactions, id))
  }

  /** All points of the given users. */
  ghost function Total(users: set<UserId>, accounts: map<UserId, Account>): int
    decreases |users|
  {
    if users == {} then 0
    else
      var user := Pick(users);
      BalanceOf(accounts, user) + HeldOf(accounts, user) + Total(users - {user}, accounts)
  }

  // ------------------------------------------------------------------ the invariants

  ghost predicate HoldMatches(s: State, hold: Hold) {
    && 0 <= hold.session < |s.sessions|
    && hold.payer == s.sessions[hold.session].requester
    && hold.payee == s.sessions[hold.session].provider
    && hold.amount == s.sessions[hold.session].Length() > 0
  }

  /** A hold copies its session's parties and length, and no session has two. */
  ghost predicate HoldsMatch(s: State) {
    && (forall i :: 0 <= i < |s.holds| ==> HoldMatches(s, s.holds[i]))
    && (forall i, j :: 0 <= i < j < |s.holds| ==> s.holds[i].session != s.holds[j].session)
  }

  /** Transaction k is recorded by entries 2k and 2k + 1, which mirror each other and carry what its session paid. */
  ghost predicate Mirrored(s: State, k: nat) {
    && k < |s.transactions| && 2 * k + 1 < |s.entries|
    && s.transactions[k].reference.Some?
    && var id := s.transactions[k].reference.value;
       && 0 <= id < |s.sessions| && Paid(s, id) > 0
       && s.entries[2 * k] == Entry(k, s.sessions[id].requester, s.sessions[id].provider, -Paid(s, id))
       && s.entries[2 * k + 1] == Entry(k, s.sessions[id].provider, s.sessions[id].requester, Paid(s, id))
  }

  ghost predicate DoubleEntry(s: State) {
    && |s.entries| == 2 * |s.transactions|
    && forall k :: 0 <= k < |s.transactions| ==> Mirrored(s, k)
  }

  /** A session is referenced once when it paid anything and never otherwise. */
  ghost predicate ReferencedOnce(s: State) {
    forall id: nat :: id < |s.sessions| ==>
      Paid(s, id) >= 0 && References(s.transactions, id) == if Paid(s, id) > 0 then 1 else 0
  }

  ghost predicate AccountAgrees(s: State, user: UserId) {
    && HeldOf(s.accounts, user) == HeldSum(s.holds, user)
    && BalanceOf(s.accounts, user) + HeldOf(s.accounts, user) == SEED_POINTS + Flow(s, user) + Windfalls(s, user)
    && BalanceOf(s.accounts, user) + HeldOf(s.accounts, user)
       == SEED_POINTS + EntrySum(s.entries, user) + Windfalls(s, user)
  }

  ghost predicate Books(s: State) {
    && DoubleEntry(s)
    && ReferencedOnce(s)
    && (forall user :: AccountAgrees(s, user))
    && forall i :: 0 <= i < |s.entries| ==> s.entries[i].user in s.accounts
  }

  // ------------------------------------------------------------------ finding holds

  /** The search finds the one hold there is. */
  lemma HoldFound(s: State, k: nat)
    requires HoldsMatch(s) && k < |s.holds|
    ensures FindHold(s.holds, s.holds[k].session) == Some(k)
  {}

  lemma NoHoldYet(s: State)
    requires HoldsMatch(s)
    ensures FindHold(s.holds, |s.sessions|).None?
  {
    forall i | 0 <= i < |s.holds| ensures s.holds[i].session != |s.sessions| { assert HoldMatches(s, s.holds[i]); }
  }

  lemma {:induction false} FindAfterUpdate(holds: seq<Hold>, k: nat, hold: Hold, id: SessionId)
    requires k < |holds| && hold.session == holds[k].session
    ensures FindHold(holds[k := hold], id) == FindHold(holds, id)
  {
    var last := |holds| - 1;
    if holds[last].session != id {
      if k < last {
        assert holds[k := hold][..last] == holds[..last][k := hold];
        FindAfterUpdate(holds[..last], k, hold, id);
      } else {
        assert holds[k := hold][..last] == holds[..last];
      }
    }
  }

  lemma FindAfterAppend(holds: seq<Hold>, hold: Hold, id: SessionId)
    ensures FindHold(holds + [hold], id) == if hold.session == id then Some(|holds|) else FindHold(holds, id)
  {
    assert (holds + [hold])[..|holds|] == holds;
  }

  lemma HeldSumAfterUpdate(holds: seq<Hold>, k: nat, hold: Hold, user: UserId)
    requires k < |holds| && holds[k].status == Held && hold.status != Held
    ensures HeldSum(holds[k := hold], user)
         == HeldSum(holds, user) - if holds[k].payer == user then holds[k].amount else 0
  {
    SumDelta(|holds|, HeldTerms(holds, user), HeldTerms(holds[k := hold], user), k);
  }

  lemma HeldSumAfterAppend(holds: seq<Hold>, hold: Hold, user: UserId)
    requires hold.status == Held
    ensures HeldSum(holds + [hold], user) == HeldSum(holds, user) + if hold.payer == user then hold.amount else 0
  {
    SumSame(|holds|, HeldTerms(holds, user), HeldTerms(holds + [hold], user));
  }

  // ------------------------------------------------------------------ moves

  ghost predicate SameParties(s: State, t: State) {
    && |t.sessions| == |s.sessions|
    && forall i :: 0 <= i < |s.sessions| ==>
         t.sessions[i].requester == s.sessions[i].requester && t.sessions[i].provider == s.sessions[i].provider
  }

  /**
   * From s to t, `released` points left the held part of the requester of session id, and `paid` points went from
   * the requester to the provider, recorded by one transaction unless nothing was paid; `gift` points were a windfall.
   */
  ghost predicate Moves(s: State, t: State, id: nat, released: int, paid: int, gift: int) {
    && SameParties(s, t) && id < |s.sessions|
    && s.sessions[id].requester != s.sessions[id].provider
    && paid >= 0 && gift >= 0 && (paid > 0 ==> Paid(s, id) == 0)
    && (forall j: nat :: j < |s.sessions| ==> Paid(t, j) == Paid(s, j) + if j == id then paid else 0)
    && (forall j: nat :: j < |s.sessions| ==> Windfall(t, j) == Windfall(s, j) + if j == id then gift else 0)
    && (forall user ::
          MovesAccount(s, t, s.sessions[id].requester, s.sessions[id].provider, released, paid, gift, user))
    && s.accounts.Keys <= t.accounts.Keys
    && MovesLedger(s, t, id, paid)
  }

  ghost predicate MovesAccount(s: State, t: State, payer: UserId, payee: UserId, released: int, paid: int, gift: int,
                               user: UserId)
  {
    && HeldOf(t.accounts, user) == HeldOf(s.accounts, user) - (if user == payer then released else 0)
    && HeldSum(t.holds, user) == HeldSum(s.holds, user) - (if user == payer then released else 0)
    && BalanceOf(t.accounts, user) == BalanceOf(s.accounts, user)
         + (if user == payer then released - paid + gift else 0) + (if user == payee then paid else 0)
  }

  ghost predicate MovesLedger(s: State, t: State, id: nat, paid: int)
    requires id < |s.sessions|
  {
    var payer, payee, k := s.sessions[id].requester, s.sessions[id].provider, |s.transactions|;
    if paid == 0 then t.transactions == s.transactions && t.entries == s.entries
    else
      && |t.transactions| == k + 1 && t.transactions[..k] == s.transactions && Refers(t.transactions[k], id)
      && t.entries == s.entries + [Entry(k, payer, payee, -paid), Entry(k, payee, payer, paid)]
      && payer in t.accounts && payee in t.accounts
  }

  lemma MoveKeepsLedger(s: State, t: State, id: nat, released: int, paid: int, gift: int)
    requires Books(s) && Moves(s, t, id, released, paid, gift)
    ensures DoubleEntry(t) && ReferencedOnce(t)
  {
    forall k | 0 <= k < |t.transactions| ensures Mirrored(t, k) {
      if k < |s.transactions| {
        assert Mirrored(s, k);
        assert t.transactions[k] == s.transactions[k];
        assert s.transactions[k].reference == Some(id) && paid > 0 ==> Paid(s, id) == 0;
      }
    }
    forall j: nat | j < |t.sessions|
      ensures Paid(t, j) >= 0 && References(t.transactions, j) == if Paid(t, j) > 0 then 1 else 0
    {
      assert Paid(s, j) >= 0;
      if paid > 0 {
        CountSame(|s.transactions|, Referring(s.transactions, j), Referring(t.transactions, j));
      }
    }
  }

  lemma MoveShiftsFlow(s: State, t: State, id: nat, released: int, paid: int, gift: int, user: UserId)
    requires Moves(s, t, id, released, paid, gift)
    ensures Flow(t, user) == Flow(s, user)
              + (if user == s.sessions[id].provider then paid else 0)
              - (if user == s.sessions[id].requester then paid else 0)
    ensures Windfalls(t, user) == Windfalls(s, user) + if user == s.sessions[id].requester then gift else 0
  {
    SumDelta(|s.sessions|, FlowTerms(s, user), FlowTerms(t, user), id);
    SumDelta(|s.sessions|, WindfallTerms(s, user), WindfallTerms(t, user), id);
  }

  lemma PostShiftsEntries(before: seq<Entry>, a: Entry, b: Entry, user: UserId)
    ensures EntrySum(before + [a, b], user)
         == EntrySum(before, user) + (if a.user == user then a.amount else 0) + if b.user == user then b.amount else 0
  {
    var n, after := |before|, before + [a, b];
    SumSame(n, EntryTerms(before, user), EntryTerms(after, user));
    assert Sum(n + 2, EntryTerms(after, user)) == Sum(n + 1, EntryTerms(after, user)) + EntryTerms(after, user)(n + 1);
  }

  lemma MoveKeepsAccount(s: State, t: State, id: nat, released: int, paid: int, gift: int, user: UserId)
    requires Books(s) && Moves(s, t, id, released, paid, gift)
    ensures AccountAgrees(t, user)
  {
    var payer, payee, k := s.sessions[id].requester, s.sessions[id].provider, |s.transactions|;
    assert AccountAgrees(s, user);
    assert MovesAccount(s, t, payer, payee, released, paid, gift, user);
    MoveShiftsFlow(s, t, id, released, paid, gift, user);
    if paid > 0 {
      PostShiftsEntries(s.entries, Entry(k, payer, payee, -paid), Entry(k, payee, payer, paid), user);
    }
  }

  lemma MoveKeepsBooks(s: State, t: State, id: nat, released: int, paid: int, gift: int)
    requires Books(s) && Moves(s, t, id, released, paid, gift)
    ensures Books(t)
  {
    MoveKeepsLedger(s, t, id, released, paid, gift);
    forall user ensures AccountAgrees(t, user) { MoveKeepsAccount(s, t, id, released, paid, gift, user); }
  }

  /** Accounts may be created and sessions edited as long as nothing is paid. */
  ghost predicate Stays(s: State, t: State) {
    && SameParties(s, t)
    && t.holds == s.holds && t.transactions == s.transactions && t.entries == s.entries
    && (forall j: nat :: j < |s.sessions| ==> Paid(t, j) == Paid(s, j) && Windfall(t, j) == Windfall(s, j))
    && SameAccounts(s.accounts, t.accounts)
  }

  ghost predicate SameAccounts(a: map<UserId, Account>, b: map<UserId, Account>) {
    && a.Keys <= b.Keys
    && forall user :: BalanceOf(b, user) == BalanceOf(a, user) && HeldOf(b, user) == HeldOf(a, user)
  }

  lemma StayKeepsBooks(s: State, t: State)
    requires Books(s) && Stays(s, t)
    ensures Books(t)
  {
    forall k | 0 <= k < |t.transactions| ensures Mirrored(t, k) { assert Mirrored(s, k); }
    forall user ensures AccountAgrees(t, user) {
      assert AccountAgrees(s, user);
      SumSame(|s.sessions|, FlowTerms(s, user), FlowTerms(t, user));
      SumSame(|s.sessions|, WindfallTerms(s, user), WindfallTerms(t, user));
    }
    forall j: nat | j < |t.sessions|
      ensures Paid(t, j) >= 0 && References(t.transactions, j) == if Paid(t, j) > 0 then 1 else 0
    {
      assert Paid(s, j) == Paid(t, j);
    }
  }

  // ------------------------------------------------------------------ the four kinds of step

  /** An edit of one row keeps what everybody paid, unless it checks the session out. */
  ghost predicate Edited(s: State, t: State, id: nat) {
    && id < |s.sessions| && |t.sessions| == |s.sessions|
    && t == s.(sessions := t.sessions)
    && (forall j :: 0 <= j < |s.sessions| && j != id ==> t.sessions[j] == s.sessions[j])
    && t.sessions[id].requester == s.sessions[id].requester && t.sessions[id].provider == s.sessions[id].provider
    && t.sessions[id].start == s.sessions[id].start && t.sessions[id].end == s.sessions[id].end
  }

  /** What settling, releasing or forfeiting a live hold is worth: negative when a check-out precedes the check-in. */
  function Worth(care: CareSession, hold: Hold, status: HoldStatus): int {
    if care.checkoutAt.Some? then Min(RawSlots(care), hold.amount) else if status == Forfeited then hold.amount else 0
  }

  lemma ResolvePays(s: State, edited: State, t: State, id: nat, k: nat, hold: Hold, slots: int, j: nat)
    requires HoldsMatch(s) && Edited(s, edited, id) && s.sessions[id].checkoutAt.None?
    requires k < |s.holds| && s.holds[k].session == id && s.holds[k].status == Held && hold.status != Held
    requires hold == s.holds[k].(status := hold.status, resolvedAt := hold.resolvedAt)
    requires slots == Worth(edited.sessions[id], hold, hold.status)
    requires t.sessions == edited.sessions && t.holds == s.holds[k := hold]
    ensures Paid(s, id) == 0 && Paid(t, j) == Paid(s, j) + if j == id then Max(slots, 0) else 0
    ensures Windfall(t, j) == Windfall(s, j) + if j == id then Max(-slots, 0) else 0
  {
    assert HoldMatches(s, s.holds[k]);
    HoldFound(s, k);
    FindAfterUpdate(s.holds, k, hold, j);
  }

  lemma ResolvedMoves(s: State, edited: State, t: State, id: nat, k: nat, hold: Hold, slots: int)
    requires HoldsMatch(s) && Edited(s, edited, id)
    requires s.sessions[id].requester != s.sessions[id].provider && s.sessions[id].checkoutAt.None?
    requires k < |s.holds| && s.holds[k].session == id && s.holds[k].status == Held && hold.status != Held
    requires hold == s.holds[k].(status := hold.status, resolvedAt := hold.resolvedAt)
    requires slots == Worth(edited.sessions[id], hold, hold.status)
    requires t.sessions == edited.sessions && t.holds == s.holds[k := hold] && MovesLedger(s, t, id, Max(slots, 0))
    requires t.accounts == ResolvedAccounts(s.accounts, hold, slots)
    ensures Moves(s, t, id, hold.amount, Max(slots, 0), Max(-slots, 0))
  {
    var released, paid, gift := hold.amount, Max(slots, 0), Max(-slots, 0);
    assert HoldMatches(s, s.holds[k]);
    forall j: nat | j < |s.sessions|
      ensures Paid(s, id) == 0 && Paid(t, j) == Paid(s, j) + if j == id then paid else 0
      ensures Windfall(t, j) == Windfall(s, j) + if j == id then gift else 0
    {
      ResolvePays(s, edited, t, id, k, hold, slots, j);
    }
    forall user
      ensures MovesAccount(s, t, s.sessions[id].requester, s.sessions[id].provider, released, paid, gift, user)
    {
      HeldSumAfterUpdate(s.holds, k, hold, user);
      ResolveAdjusts(s.accounts, hold, slots, user);
    }
    MovesNow(s, t, id, released, paid, gift);
  }

  /** Ending a hold moves the slots it is worth out of the held amount, whatever the outcome. */
  lemma ResolveMoves(s: State, edited: State, id: nat, k: nat, status: HoldStatus, slots: int, reason: Option<Reason>,
                     at: Option<int>)
    requires HoldsMatch(s) && Edited(s, edited, id)
    requires s.sessions[id].requester != s.sessions[id].provider && s.sessions[id].checkoutAt.None?
    requires k < |s.holds| && s.holds[k].session == id && s.holds[k].status == Held && status != Held
    requires slots == Worth(edited.sessions[id], s.holds[k], status) && (reason.Some? <==> slots > 0)
    ensures Moves(s, Resolve(edited, k, status, slots, reason, at), id, s.holds[k].amount, Max(slots, 0),
                  Max(-slots, 0))
  {
    assert HoldMatches(s, s.holds[k]);
    var hold := s.holds[k].(status := status, resolvedAt := at);
    ResolvedMoves(s, edited, Resolve(edited, k, status, slots, reason, at), id, k, hold, slots);
  }

  function ResolvedAccounts(accounts: map<UserId, Account>, hold: Hold, slots: int): map<UserId, Account> {
    var closed := Adjust(accounts, hold.payer, hold.amount - slots, -hold.amount);
    if slots > 0 then Adjust(closed, hold.payee, slots, 0) else closed
  }

  lemma ResolveAdjusts(accounts: map<UserId, Account>, hold: Hold, slots: int, user: UserId)
    requires hold.payer != hold.payee
    ensures var r := ResolvedAccounts(accounts, hold, slots);
            && HeldOf(r, user) == HeldOf(accounts, user) - (if user == hold.payer then hold.amount else 0)
            && BalanceOf(r, user) == BalanceOf(accounts, user)
                 + (if user == hold.payer then hold.amount - slots else 0)
                 + (if user == hold.payee then Max(slots, 0) else 0)
  {}

  lemma TransferAdjusts(accounts: map<UserId, Account>, payer: UserId, payee: UserId, paid: int, user: UserId)
    requires payer != payee
    ensures var r := Adjust(Adjust(Touch(accounts, payee), payer, -paid, 0), payee, paid, 0);
            && HeldOf(r, user) == HeldOf(accounts, user)
            && BalanceOf(r, user) == BalanceOf(accounts, user)
                 - (if user == payer then paid else 0) + (if user == payee then paid else 0)
  {}

  lemma CheckoutWithoutHoldPays(s: State, edited: State, t: State, id: nat, paid: int, j: nat)
    requires Edited(s, edited, id) && s.sessions[id].checkoutAt.None? && edited.sessions[id].checkoutAt.Some?
    requires FindHold(s.holds, id).None? && paid == Max(0, RawSlots(edited.sessions[id]))
    requires t.sessions == edited.sessions && t.holds == s.holds
    ensures Paid(s, id) == 0 && Paid(t, j) == Paid(s, j) + if j == id then paid else 0
    ensures Windfall(t, j) == Windfall(s, j)
  {}

  lemma TransferMoves(s: State, edited: State, id: nat, paid: int)
    requires HoldsMatch(s) && Edited(s, edited, id)
    requires s.sessions[id].requester != s.sessions[id].provider
    requires s.sessions[id].checkoutAt.None? && edited.sessions[id].checkoutAt.Some?
    requires FindHold(s.holds, id).None? && paid == RawSlots(edited.sessions[id]) > 0
    ensures var t := Transfer(edited, s.sessions[id].requester, s.sessions[id].provider, paid, Settlement, id);
            Moves(s, t, id, 0, paid, 0)
  {
    var payer, payee, released, gift := s.sessions[id].requester, s.sessions[id].provider, 0, 0;
    var t := Transfer(edited, payer, payee, paid, Settlement, id);
    forall j: nat | j < |s.sessions|
      ensures Paid(s, id) == 0 && Paid(t, j) == Paid(s, j) + if j == id then paid else 0
      ensures Windfall(t, j) == Windfall(s, j) + if j == id then gift else 0
    {
      CheckoutWithoutHoldPays(s, edited, t, id, paid, j);
    }
    forall user ensures MovesAccount(s, t, payer, payee, released, paid, gift, user) {
      TransferAdjusts(s.accounts, payer, payee, paid, user);
    }
    MovesNow(s, t, id, released, paid, gift);
  }

  /** Moves, conjunct by conjunct. */
  lemma MovesNow(s: State, t: State, id: nat, released: int, paid: int, gift: int)
    requires SameParties(s, t) && id < |s.sessions| && s.sessions[id].requester != s.sessions[id].provider
    requires paid >= 0 && gift >= 0 && (paid > 0 ==> Paid(s, id) == 0)
    requires forall j: nat :: j < |s.sessions| ==> Paid(t, j) == Paid(s, j) + if j == id then paid else 0
    requires forall j: nat :: j < |s.sessions| ==> Windfall(t, j) == Windfall(s, j) + if j == id then gift else 0
    requires forall user ::
      MovesAccount(s, t, s.sessions[id].requester, s.sessions[id].provider, released, paid, gift, user)
    requires s.accounts.Keys <= t.accounts.Keys && MovesLedger(s, t, id, paid)
    ensures Moves(s, t, id, released, paid, gift)
  {}

  lemma HoldPaysNothing(s: State, edited: State, t: State, id: nat, hold: Hold, j: nat)
    requires Edited(s, edited, id) && FindHold(s.holds, id).None? && hold.session == id && hold.status == Held
    requires s.sessions[id].checkoutAt.None? && edited.sessions[id].checkoutAt.None?
    requires t.sessions == edited.sessions && t.holds == s.holds + [hold]
    ensures Paid(t, j) == Paid(s, j) && Windfall(t, j) == Windfall(s, j)
  {
    FindAfterAppend(s.holds, hold, j);
  }

  lemma CreateHoldMoves(s: State, edited: State, id: nat)
    requires HoldsMatch(s) && Edited(s, edited, id)
    requires s.sessions[id].requester != s.sessions[id].provider
    requires s.sessions[id].checkoutAt.None? && edited.sessions[id].checkoutAt.None? && FindHold(s.holds, id).None?
    requires BalanceOf(s.accounts, s.sessions[id].requester) > NEGATIVE_BALANCE_LIMIT
    ensures Moves(s, CreateHold(edited, id).state, id, -s.sessions[id].Length(), 0, 0)
  {
    var t := CreateHold(edited, id).state;
    var payer, payee, amount := s.sessions[id].requester, s.sessions[id].provider, s.sessions[id].Length();
    var hold := Hold(id, payer, payee, amount, Held, None);
    assert t.holds == s.holds + [hold];
    var released, paid, gift := -amount, 0, 0;
    forall j: nat | j < |s.sessions|
      ensures Paid(t, j) == Paid(s, j) + (if j == id then paid else 0)
      ensures Windfall(t, j) == Windfall(s, j) + if j == id then gift else 0
    {
      HoldPaysNothing(s, edited, t, id, hold, j);
    }
    forall user ensures MovesAccount(s, t, payer, payee, released, paid, gift, user) {
      HeldSumAfterAppend(s.holds, hold, user);
      HoldAdjusts(s.accounts, payer, payee, amount, user);
    }
    MovesNow(s, t, id, released, paid, gift);
  }

  lemma HoldAdjusts(accounts: map<UserId, Account>, payer: UserId, payee: UserId, amount: int, user: UserId)
    ensures var r := Adjust(Touch(Touch(accounts, payer), payee), payer, -amount, amount);
            && HeldOf(r, user) == HeldOf(accounts, user) + (if user == payer then amount else 0)
            && BalanceOf(r, user) == BalanceOf(accounts, user) - (if user == payer then amount else 0)
  {}

  /** Any number of edits that check nobody out. */
  lemma EditsStay(s: State, t: State, user: UserId)
    requires |t.sessions| == |s.sessions|
    requires t == s.(sessions := t.sessions, accounts := t.accounts)
    requires t.accounts == s.accounts || t.accounts == Touch(s.accounts, user)
    requires forall j :: 0 <= j < |s.sessions| ==>
      t.sessions[j] == s.sessions[j].(status := t.sessions[j].status, checkinAt := t.sessions[j].checkinAt,
                                      cancelledAt := t.sessions[j].cancelledAt, atFault := t.sessions[j].atFault)
    ensures Stays(s, t)
  {
    forall j: nat | j < |s.sessions| ensures Paid(t, j) == Paid(s, j) && Windfall(t, j) == Windfall(s, j) {
      assert t.sessions[j].checkoutAt == s.sessions[j].checkoutAt;
    }
  }

  lemma NewSessionKeepsBooks(s: State, t: State, care: CareSession)
    requires Books(s) && HoldsMatch(s) && care.checkoutAt.None?
    requires t == s.(sessions := s.sessions + [care])
    ensures Books(t)
  {
    var n := |s.sessions|;
    forall j: nat ensures Paid(t, j) == Paid(s, j) && Windfall(t, j) == Windfall(s, j) {
      NoHoldYet(s);
    }
    forall k | 0 <= k < |t.transactions| ensures Mirrored(t, k) { assert Mirrored(s, k); }
    forall j: nat | j < |t.sessions|
      ensures Paid(t, j) >= 0 && References(t.transactions, j) == if Paid(t, j) > 0 then 1 else 0
    {
      if j < n {
        assert Paid(s, j) >= 0;
      } else {
        forall k: nat | k < |s.transactions| ensures !Referring(s.transactions, n)(k) { assert Mirrored(s, k); }
        CountNone(|s.transactions|, Referring(s.transactions, n));
      }
    }
    forall user ensures AccountAgrees(t, user) {
      assert AccountAgrees(s, user);
      SumSame(n, FlowTerms(s, user), FlowTerms(t, user));
      SumSame(n, WindfallTerms(s, user), WindfallTerms(t, user));
    }
  }
}
