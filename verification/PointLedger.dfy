/** app/services/point_ledger_service.py */
module PointLedger {
  import opened Prelude
  import opened CareModel
  import opened CareDatabase

  /** Creating both accounts first makes no difference to a pair of updates. */
  lemma TouchedFirst(accounts: map<UserId, Account>, payer: UserId, payee: UserId, balance: int, held: int, gain: int)
    ensures Adjust(Adjust(Touch(Touch(accounts, payer), payee), payer, balance, held), payee, gain, 0)
         == Adjust(Adjust(Touch(accounts, payee), payer, balance, held), payee, gain, 0)
         == Adjust(Adjust(accounts, payer, balance, held), payee, gain, 0)
  {}

  class PointLedgerService {
    const db: Database

    constructor (db: Database)
      ensures this.db == db
    {
      this.db := db;
    }

    /** `PointAccountRepository.get_or_create` */
    method GetOrCreate(user: UserId) returns (account: Account)
      modifies db`accounts
      ensures db.accounts == Touch(old(db.accounts), user)
      ensures user in db.accounts && account == db.accounts[user]
    {
      if user !in db.accounts {
        db.accounts := db.accounts[user := Account(SEED_POINTS, 0)];
      }
      account := db.accounts[user];
    }

    method GetBalance(user: UserId) returns (balance: int)
      modifies db`accounts
      ensures db.Snapshot() == ReadBalance(old(db.Snapshot()), user).state
      ensures balance == BalanceOf(old(db.accounts), user)
    {
      var account := GetOrCreate(user);
      balance := account.balance;
    }

    /** `account.balance += balance; account.held_balance += held` on an account that exists. */
    method Add(user: UserId, balance: int, held: int)
      requires user in db.accounts
      modifies db`accounts
      ensures db.accounts == Adjust(old(db.accounts), user, balance, held)
    {
      var account := db.accounts[user];
      account := account.(balance := account.balance + balance);
      account := account.(held := account.held + held);
      db.accounts := db.accounts[user := account];
    }

    method CheckCanRequest(requester: UserId) returns (reply: Reply)
      modifies db`accounts
      ensures Result(db.Snapshot(), reply) == EnsureCanRequest(old(db.Snapshot()), requester)
    {
      var account := GetOrCreate(requester);
      reply := if account.balance <= NEGATIVE_BALANCE_LIMIT then BadRequest else Done;
    }

    /** Adds a transaction and its two entries. */
    method AddTransaction(reason: Reason, session: SessionId, payer: UserId, payee: UserId, amount: int)
      returns (id: nat)
      modifies db`transactions, db`entries
      ensures db.Snapshot() == Post(old(db.Snapshot()), reason, session, payer, payee, amount)
      ensures id == |old(db.transactions)|
    {
      id := |db.transactions|;
      db.transactions := db.transactions + [Transaction(reason, Some(session))];
      db.entries := db.entries + [Entry(id, payer, payee, -amount)];
      db.entries := db.entries + [Entry(id, payee, payer, amount)];
    }

    method TransferPoints(payer: UserId, payee: UserId, amount: int, reason: Reason, session: SessionId)
      returns (id: nat)
      modifies db`accounts, db`transactions, db`entries
      ensures db.Snapshot() == Transfer(old(db.Snapshot()), payer, payee, amount, reason, session)
      ensures id == |old(db.transactions)|
    {
      var _ := GetOrCreate(payer);
      var _ := GetOrCreate(payee);
      id := AddTransaction(reason, session, payer, payee, amount);
      Add(payer, -amount, 0);
      Add(payee, amount, 0);
      TouchedFirst(old(db.accounts), payer, payee, -amount, 0, amount);
    }

    method PlaceHold(id: SessionId) returns (reply: Reply)
      requires 0 <= id < |db.sessions|
      modifies db`accounts, db`holds
      ensures Result(db.Snapshot(), reply) == CreateHold(old(db.Snapshot()), id)
    {
      var care := db.sessions[id];
      var amount := care.end - care.start;
      reply := CheckCanRequest(care.requester);
      if reply != Done { return; }
      var _ := GetOrCreate(care.requester);
      var _ := GetOrCreate(care.provider);
      db.holds := db.holds + [Hold(id, care.requester, care.provider, amount, Held, None)];
      Add(care.requester, -amount, amount);
    }

    /** Everything goes back to the payer. */
    method ReleaseHold(k: nat)
      requires k < |db.holds|
      modifies db`accounts, db`holds
      ensures db.Snapshot() == Resolve(old(db.Snapshot()), k, Released, 0, None, old(db.holds)[k].resolvedAt)
    {
      var hold := db.holds[k];
      var _ := GetOrCreate(hold.payer);
      Add(hold.payer, hold.amount, -hold.amount);
      db.holds := db.holds[k := hold.(status := Released)];
    }

    /** `payer_account.held_balance -= amount; payee_account.balance += amount` */
    method MoveHeld(payer: UserId, payee: UserId, amount: int)
      requires payer in db.accounts && payee in db.accounts
      modifies db`accounts
      ensures db.accounts == Adjust(Adjust(old(db.accounts), payer, 0, -amount), payee, amount, 0)
    {
      Add(payer, 0, -amount);
      Add(payee, amount, 0);
    }

    /** Everything goes to the payee, with a transaction that gives the reason. */
    method ForfeitHold(k: nat, reason: Reason)
      requires k < |db.holds|
      modifies db`accounts, db`holds, db`transactions, db`entries
      ensures db.Snapshot() == Resolve(old(db.Snapshot()), k, Forfeited, old(db.holds)[k].amount, Some(reason),
                                       old(db.holds)[k].resolvedAt)
    {
      var hold := db.holds[k];
      var _ := GetOrCreate(hold.payer);
      var _ := GetOrCreate(hold.payee);
      var _ := AddTransaction(reason, hold.session, hold.payer, hold.payee, hold.amount);
      MoveHeld(hold.payer, hold.payee, hold.amount);
      TouchedFirst(old(db.accounts), hold.payer, hold.payee, 0, -hold.amount, hold.amount);
      db.holds := db.holds[k := hold.(status := Forfeited)];
    }

    /** `hold.resolved_at = at` */
    method Stamp(k: nat, at: Option<int>)
      requires k < |db.holds|
      modifies db`holds
      ensures db.holds == old(db.holds)[k := old(db.holds)[k].(resolvedAt := at)]
    {
      db.holds := db.holds[k := db.holds[k].(resolvedAt := at)];
    }

    method ResolveHoldOnCancel(id: SessionId, pastDeadline: bool)
      requires 0 <= id < |db.sessions|
      modifies db`accounts, db`holds, db`transactions, db`entries
      ensures db.Snapshot() == ResolveOnCancel(old(db.Snapshot()), id, pastDeadline)
    {
      var care, found := db.sessions[id], FindHold(db.holds, id);
      if found.None? || db.holds[found.value].status != Held { return; }
      if pastDeadline && care.atFault == Some(db.holds[found.value].payer) {
        ForfeitHold(found.value, CancelPenalty);
      } else {
        ReleaseHold(found.value);
      }
      Stamp(found.value, care.cancelledAt);
    }

    method ResolveHoldOnNoShow(id: SessionId)
      requires 0 <= id < |db.sessions|
      modifies db`accounts, db`holds, db`transactions, db`entries
      ensures db.Snapshot() == ResolveOnNoShow(old(db.Snapshot()), id)
    {
      var care, found := db.sessions[id], FindHold(db.holds, id);
      if found.None? || db.holds[found.value].status != Held { return; }
      if care.atFault == Some(care.requester) {
        ForfeitHold(found.value, NoShowPenalty);
      } else {
        ReleaseHold(found.value);
      }
      Stamp(found.value, care.cancelledAt);
    }

    /** The hold is settled and all but the slots to be paid comes back to the payer. */
    method CloseHold(k: nat, slots: int, at: Option<int>)
      requires k < |db.holds|
      modifies db`accounts, db`holds
      ensures db.Snapshot() == Resolve(old(db.Snapshot()), k, Settled, slots, None, at)
    {
      var hold := db.holds[k];
      var _ := GetOrCreate(hold.payer);
      Add(hold.payer, hold.amount - slots, -hold.amount);
      db.holds := db.holds[k := hold.(status := Settled, resolvedAt := at)];
    }

    /** The slots to be paid go to the payee, with a transaction. */
    method PayOut(hold: Hold, slots: int) returns (id: nat)
      modifies db`accounts, db`transactions, db`entries
      ensures db.Snapshot()
           == Post(old(db.Snapshot()).(accounts := Adjust(old(db.accounts), hold.payee, slots, 0)),
                   Settlement, hold.session, hold.payer, hold.payee, slots)
      ensures id == |old(db.transactions)|
    {
      var _ := GetOrCreate(hold.payee);
      id := AddTransaction(Settlement, hold.session, hold.payer, hold.payee, slots);
      Add(hold.payee, slots, 0);
    }

    /** The worked slots, at most what was held, go to the payee; the rest comes back. */
    method SettleHold(k: nat, raw: int, at: Option<int>) returns (posted: Option<nat>)
      requires k < |db.holds|
      modifies db`accounts, db`holds, db`transactions, db`entries
      ensures var slots := Min(raw, old(db.holds)[k].amount);
              && db.Snapshot() == Resolve(old(db.Snapshot()), k, Settled, slots,
                                          if slots <= 0 then None else Some(Settlement), at)
              && posted == if slots <= 0 then None else Some(|old(db.transactions)|)
    {
      var hold := db.holds[k];
      var slots := Min(raw, hold.amount);
      CloseHold(k, slots, at);
      if slots <= 0 { return None; }
      var transaction := PayOut(hold, slots);
      return Some(transaction);
    }

    /** Pays at most once per session: out of the hold when there is a live one, directly otherwise. */
    method SettleCareSession(id: SessionId) returns (posted: Option<nat>)
      requires 0 <= id < |db.sessions|
      modifies db`accounts, db`holds, db`transactions, db`entries
      ensures db.Snapshot() == Settle(old(db.Snapshot()), id)
      ensures posted == if db.transactions == old(db.transactions) then None else Some(|old(db.transactions)|)
    {
      if HasSettled(db.transactions, id) { return None; }
      var care, found := db.sessions[id], FindHold(db.holds, id);
      var raw := RawSlots(care);
      if found.None? || db.holds[found.value].status != Held {
        if raw <= 0 { return None; }
        var transfer := TransferPoints(care.requester, care.provider, raw, Settlement, id);
        return Some(transfer);
      }
      posted := SettleHold(found.value, raw, care.checkoutAt);
    }
  }
}
