/** The tables as updated in place by the services. */
module CareDatabase {
  import opened CareModel
  import TrustModel
  import WorkSchedule

  class Database {
    var accounts: map<UserId, Account>
    var sessions: seq<CareSession>
    var holds: seq<Hold>
    var transactions: seq<Transaction>
    var entries: seq<Entry>
    var schedules: map<WorkSchedule.Key, WorkSchedule.Row>
    var evaluations: seq<Evaluation>
    var careLogs: set<SessionId>
    var relationships: map<TrustModel.Pair, TrustModel.Relationship>
    var joints: seq<TrustModel.Joint>
    var required: map<UserId, int>
    var history: seq<TrustModel.Change>
    var events: seq<TrustModel.Transition>
    var sanctioned: set<UserId>
    var inactive: set<UserId>
    var requestLog: seq<RequestEvent>
    const children: map<int, UserId>

    function Trust(): TrustModel.State
      reads this
    {
      TrustModel.State(relationships, joints, required, history, events)
    }

    function Snapshot(): State
      reads this
    {
      State(accounts, sessions, holds, transactions, entries, schedules, evaluations, careLogs, Trust(), sanctioned,
            inactive, requestLog, children)
    }

    constructor (children: map<int, UserId>)
      ensures Snapshot() == Initial(children)
    {
      this.children := children;
      accounts, sessions, holds, transactions, entries := map[], [], [], [], [];
      schedules, evaluations, careLogs := map[], [], {};
      relationships, joints, required, history, events := map[], [], map[], [], [];
      sanctioned, inactive, requestLog := {}, {}, [];
    }
  }
}
