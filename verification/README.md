# Verified model of the care-exchange backend

Guardians who work shifts look after each other's children and pay each other in points, one point per half hour.
This project models the parts of the backend in which a mistake would be hard to see: the point ledger together with
the care sessions that drive it, the slot bitmasks behind booking, the trust levels between pairs of guardians, and
the guards of the login service. Everything is stated for all inputs and for every run of calls, made by anybody in
any order.

`dafny verify dfyconfig.toml` checks the whole project.

## How it is organised

| files | content |
|---|---|
| `Prelude`, `PyInt` | sums and counts over an index range; Python integers under the bitwise operators |
| `ScheduleSlots`, `WorkSchedule` | 48-slot masks, the complementary test, shift templates, what a history of registrations leaves behind |
| `CareModel` | the tables, every service call as a function from tables to tables, and runs of calls |
| `CareBooks`, `CareInvariants`, `CareSteps`, `CareSuspend` | what a call may do to the books, the invariant, and one lemma per call |
| `CareFrames` | what each call leaves alone |
| `CareOutcomes`, `CareAnswers` | what every single call answers and does, told from the rows alone |
| `CareRuns`, `CareCauses`, `CareHistories`, `CareFloor`, `CareClock`, `CareSeeding` | the theorems about runs: what holds after each, which calls are behind each row, and exact conditions with the runs that miss them |
| `CareScenarios` | building concrete runs |
| `TrustModel`, `TrustTheorems`, `TrustOutcomes`, `TrustScore`, `TrustScoreBounds` | trust levels and the trust score |
| `CareDatabase`, `PointLedger`, `CareSessions`, `AdminSuspend`, `WorkSchedules`, `TrustLevels` | the same calls as methods that update one database in place, step by step, each proved equal to its function |
| `RateLimits`, `Lockouts`, `RefreshTokens`, `Identities` | sliding-window limiter, login lockout, token rotation, sealed phone identities; functions, theorems and the class in one file |

A service whose methods assign fields is a class whose methods state the whole new state as a function of the old one;
the theorems are about those functions and the runs built from them. Tables whose rows are only inserted are
sequences, and a row's index is its id. Times are integers in microseconds, days are day numbers.

## What to know about the results

* **Answers and causes.** The theorems about runs speak of the functions of the model. What those functions are is
  stated a second time, from the rows alone and without their helpers: every answer of every call, for every caller and
  id, and every table it leaves behind (`CareAnswers`, `CareOutcomes`, `TrustOutcomes`, and the `Outcome` lemmas of the
  login service). The other way round, every status, time, flag, mark and reason that a run leaves in a row goes back to
  a call by the right person (`CareCauses`, `TrustOutcomes.FlagsHaveCalls`, `Identities.AccountsHaveCalls`).
* **The wall clock in the points model.** The services read the wall clock, and nothing keeps it from going back
  between a check-in and a check-out. The theorems about sessions and points hold whatever it reads. Settling a hold for
  a negative time creates points; the model calls them windfalls, `CareRuns.PointsClosedForm` accounts for them, and
  `CareRuns.PointsConserved` says that the total is kept if and only if no session with a hold was checked out before it
  was checked in. A clock that never goes back suffices (`CareHistories.ForwardClockConserves`), and however little it
  goes back, some run creates points (`CareClock.ClockBackCreatesPoints`).
* **The wall clock in the login lockout.** `authenticate` reads the wall clock too. What the lock does and how failures
  are spaced holds whatever it reads (`Lockouts.LockedExactlyAfterFullBlock`, `Lockouts.PauseInEveryBlock`). That no
  interval of a lock's length holds more failures than allowed is a theorem about clocks that never go back
  (`Lockouts.FailuresAreThrottled`); it is true of all clocks only for policies that lock after one failure or for no
  time (`Lockouts.ThrottlesAnyClockExactly`), so not for the five attempts and fifteen minutes in use.
* **The monotonic clock in the rate limiter.** `RateLimiter` reads a clock that never goes back (`time.monotonic`), and
  its theorems are about non-decreasing times.
* **Accept commits before it reserves.** A refused hold leaves the session confirmed without one, and settlement then
  pays by direct transfer, without the cap and without a look at the balance. So -41, the lowest balance a hold leaves,
  is not a floor of the code: for every number of slots a run ends that far below it (`CareFloor.FloorFalls`). All
  balances stay at or above -41 throughout a run if and only if none of its check-outs succeeds without a hold for
  more slots than the requester's balance lies above -41 (`CareFloor.FloorExactly`). `CareRuns.BalanceFloor` bounds
  every balance in the runs that do fall, and `CareFloor.FloorIsReached` shows that -41 is met.
* **Late cancellation.** The docstring of `cancel` (app/services/care_session_service.py:266-268) says that a late
  cancellation transfers the hold to the other party. The code transfers it only when the requester is the one who
  cancels (app/services/point_ledger_service.py:152), as its own docstring there says. The model follows the code
  (`CareOutcomes.CancelOutcome`).
* **Unique phones.** The docstring of `assert_unique` (auth_kit/verification_service.py:37-38) calls a unique
  constraint the last line of defence. `users.phone_hash` has an index but no such constraint (auth_kit/models.py:88),
  so the uniqueness proved in `Identities` rests on signups being handled one after the other. The sealed table does
  have the constraint (auth_kit/models.py:230), and the model rolls a call back that breaks it; no reachable call does.
* **Weights.** `update_weights` does not look at signs. All reachable scores lie between 0 and the sum of the weights
  if and only if no weight is negative (`TrustScoreBounds.InRangeExactlyWhenNonNegative`); weights that the method
  accepts and that put a new user's score out of range are in `TrustScoreBounds.AcceptedWeightsOutOfRange`.
* **Rate limiter.** `retry_after` on a limiter that allows no calls at all indexes an empty queue; the model returns
  `None` there, and that is proved to be the only case.
* **Single rows.** Lookups by `scalar_one_or_none` are modelled as searches; that there is never more than one hold,
  and never more than one transaction, per session is a theorem (`CareRuns.HoldFollowsSession`,
  `CareRuns.LedgerIsDoubleEntry`). The assertion in `confirm_joint_session` is a `Crash` answer, proved unreachable.

## Model

| member | source | states |
|---|---|---|
| CareRuns.PointsClosedForm | app/services/point_ledger_service.py:55-226 | in every reachable state, whatever the clock read, balance plus held balance is 12 plus what the user's sessions paid as provider minus as requester (min(worked slots, length) checked out with a hold, worked slots without one, never below 0; the length for a forfeited hold; 0 otherwise) plus the negative slots of the requester's holds settled before their check-in; the ledger entries add up to what the sessions paid, and the held balance is the sum of the user's live holds |
| CareRuns.PointsConserved | app/services/point_ledger_service.py:55-226 | in every reachable state all accounts together hold exactly 12 points per account plus the negative slots of holds settled before their check-in; so the seed alone, and never less, if and only if no session with a hold was checked out before it was checked in |
| CareRuns.LedgerIsDoubleEntry | app/services/point_ledger_service.py:66-79 | in every reachable state each transaction has exactly two entries, a debit and the equal credit of the counterparty, and no two transactions refer to the same session |
| CareRuns.SettledOnlyOnce | app/services/point_ledger_service.py:175-226 | in any reachable state settling changes something if and only if the session has a live hold, and a checked-out session has none |
| CareRuns.HoldFollowsSession | app/services/point_ledger_service.py:85-173 | a session has at most one hold; its parties and amount are the session's; it is HELD, SETTLED, FORFEITED or RELEASED if and only if the session is confirmed, checked out, ended with the requester at fault, or ended otherwise; it was resolved when the session was checked out or else ended, and never while it is held |
| CareRuns.BalanceFloor | app/services/point_ledger_service.py:50-53 | no reachable balance is below -41 by more than the user's settlements without a hold |
| CareRuns.NoDoubleBooking | app/repositories/care_session_repository.py:31-44 | in every reachable state two active sessions of one day that share a person, in either role, or a child have disjoint slots |
| CareRuns.DayFits | app/services/care_session_service.py:106-109 | a user's active sessions of one day, in either role, together take at most 48 slots |
| CareAnswers.SuspendOutcome | app/services/admin_service.py:23-103 | in every reachable state the answer is 403 exactly without an administrator, 404 exactly for an administrator and an unknown user, and a refused call changes nothing; otherwise the suspension marks the target sanctioned and inactive, cancels exactly its active sessions, releases exactly the live holds on its sessions, leaves nothing of it held, refunds each payer the sum of those holds, and changes nothing else |
| CareRuns.StepKeeps | app/services/care_session_service.py:70-333 | every service call, at whatever time, keeps the invariant over sessions, holds, ledger, accounts, schedules and evaluations |
| CareSuspend.SuspendEndsEverything | app/services/admin_service.py:77-103 | what the two loops do, row by row: which sessions and holds change and how, every other row untouched, and each payer's refund as the sum of their live holds on the target's sessions |
| CareSuspend.StoppedContents | app/services/admin_service.py:77-94 | the collected list holds exactly the listed sessions that were active, each with whether it was confirmed |
| CareSuspend.ReleaseAll | app/services/admin_service.py:98-101 | releasing the listed holds one by one releases exactly the live holds of confirmed listed sessions and keeps the books balanced |
| CareAnswers.RequestOutcome | app/services/care_session_service.py:70-137 | in every reachable state, and with the exact answer in every case: a request is accepted if and only if the range is valid, the requester has evaluated every checked-out session they were a party of, a solo request is between a pair at L3, the balance is above -12, the child is the requester's, every slot is work time of the requester and free time of the provider, and neither has an active session in any of the slots; 403 is the trust gate and 409 an overlap; an accepted request adds the session and logs the request, as a rematch if and only if the two, in either role, have a completed session; no balance changes, and nothing else does |
| CareAnswers.AcceptOutcome | app/services/care_session_service.py:148-178 | for every id and caller the exact answer: 404 unless the caller provides the session, 409 unless it is requested, 400 when the caller owes an evaluation or the requester is at the limit; unless the provider may accept, nothing changes; if so the session is confirmed in either case, the two become acquaintances at L1 if they were not, no other level changes, and the length is reserved, as a hold, exactly when the requester's balance is above -12 |
| CareAnswers.RejectOutcome | app/services/care_session_service.py:180-197 | for every id and caller the exact answer: only the provider rejects, only a requested session; success makes exactly that row REJECTED, and a refusal changes nothing |
| CareAnswers.CheckinOutcome | app/services/care_session_service.py:199-224 | for every id and caller the exact answer: only the provider checks in, to a confirmed session, once, and from out of range only with a reason; a successful check-in sets the time and changes nothing else |
| CareAnswers.ReviewOutcome | app/services/trust_evaluation_service.py:18-45 | for every id, user and rating the exact answer: each party of a checked-out session evaluates the other one, once, with 1 to 5; a refused evaluation changes nothing |
| CareAnswers.JournalOutcome | app/services/care_log_service.py:28-63 | for every id and caller the exact answer: only the provider of a confirmed session writes its journal |
| CareOutcomes.CheckoutOutcome | app/services/care_session_service.py:199-253 | in every reachable state the exact answer for every id and caller; the row gets the time and the full minutes; the provider gets the full half hours between check-in and check-out, at most the reserved ones if any were, and the requester the rest of the reservation; with a hold and a clock behind the check-in the requester gets the difference on top; the hold is settled as of now, and one settlement is booked if slots are paid and nothing otherwise |
| CareOutcomes.CancelOutcome | app/services/care_session_service.py:255-293 | in every reachable state the exact answer for every id and caller; a cancellation blames the actor exactly when a confirmed session starts in less than two hours, and returns the hold to the requester unless it is the requester who is to blame, in which case the provider gets it under one transaction with the cancellation penalty as its reason; the hold is resolved as of now; nothing else changes, and a refused call changes nothing |
| CareOutcomes.NoShowOutcome | app/services/care_session_service.py:295-333 | in every reachable state the exact answer for every id and caller; a no-show is charged to the party that did not report it, and the provider gets the hold exactly when that is the requester, under one transaction with the no-show penalty as its reason; the hold is resolved as of now; nothing else changes, and a refused call changes nothing |
| CareOutcomes.HeldPointsCanBeFreed | app/services/point_ledger_service.py:143-226 | for every live hold of every reachable state and at any time, one call succeeds and takes exactly the hold's amount out of what is held of the payer: cancelling by the requester before the check-in, checking out by the provider after it |
| CareCauses.SessionLifeCycle | app/services/care_session_service.py:148-333 | in any reachable state and at any time a call changes a session row in one of seven ways, each told from the row alone (who, from which status, which times), or not at all; a request adds one row and no row goes away |
| CareCauses.EverySessionHasItsCalls | app/services/care_session_service.py:70-333 | in every run the row of a session goes back to calls: its request by the requester; if it is confirmed, a no-show or checked in, the acceptance by its provider; rejection, check-in and check-out by the provider; cancellation by a party, who is the one at fault if anybody is, or by an administrator suspending a party; the no-show report by the party not at fault; the timed ones at the time the row gives |
| CareCauses.TransactionsTellWhy | app/services/point_ledger_service.py:143-226 | in every run the reason of a transaction is decided by its session: a settlement if and only if it was checked out, a no-show penalty if and only if it is a no-show, a cancellation penalty if and only if it was cancelled without a check-out; and penalties are paid only when the requester is at fault |
| CareCauses.MarkedExactly | app/services/admin_service.py:67-75 | in every run a user is marked sanctioned, and inactive, if and only if the calls hold an administrator's suspension of that existing user |
| CareCauses.EvaluationsHaveCalls | app/services/trust_evaluation_service.py:18-45 | in every run an evaluation of a session by a user exists if and only if that user handed one in and it was taken |
| CareCauses.OwingBlocks | app/repositories/care_evaluation_repository.py:43-61 | whoever was a party of a checked-out session and never got an evaluation of it through has every request answered with 400 and every acceptance refused, with nothing changed |
| CareClock.CheckoutConservesExactly | app/services/point_ledger_service.py:194-203 | from any reachable state a check-out keeps the sum of the two parties' points if and only if there is no hold or the clock is not before the check-in |
| CareClock.ClockBackCreatesPoints | app/services/point_ledger_service.py:194-203 | for every amount, a run whose clock goes back by no more than that ends with more points than were seeded |
| CareHistories.ForwardClockConserves | app/services/point_ledger_service.py:55-226 | in runs whose clock never goes back the total is 12 per account and the closed form has no windfalls |
| CareFloor.FloorStep | app/services/point_ledger_service.py:175-192 | from a reachable state with no balance below -41 a call, of whatever kind, brings one below if and only if it is a check-out that succeeds without a hold after more slots than the requester's balance plus 41 |
| CareFloor.CheckoutKeepsFloorExactly | app/services/point_ledger_service.py:175-192 | from a balance of at least -41 a check-out leaves the requester at least there if and only if the session has a hold or the worked slots are at most the balance plus 41 |
| CareFloor.FloorExactly | app/services/point_ledger_service.py:50-53 | over every run, all balances stay at or above -41 at every point if and only if no call of the run is such a check-out |
| CareFloor.FloorFalls | app/services/care_session_service.py:174-177 | for every positive number of slots a run with a forward clock, in which an accepted request was refused its hold, ends exactly that far below -41 |
| CareFloor.FloorIsReached | app/services/point_ledger_service.py:85-104 | a run with a forward clock and no transaction brings a balance to -41 |
| CareHistories.SchedulesAreReplayed | app/services/work_schedule_service.py:30-47 | the schedule table of every run is what the registrations among its calls leave behind, so the history theorem covers it |
| CareHistories.MasksFollowHistory | app/services/work_schedule_service.py:18-47 | in every reachable state a user's mask of a day, the one requests are judged by, shows the last template the run registered for it and the tail of a night registered since for the day before |
| CareHistories.TrustIsItsOwnRun | app/services/trust_level_service.py:52-188 | the trust tables of every run are those of a run of the trust-level service alone, made of its calls and one grant per acceptance, so its theorems hold of the whole system |
| CareHistories.SoloRequestIsEarned | app/services/care_session_service.py:87-88 | a solo request that is accepted in any reachable state is between two different users who both made a call to confirm one and the same joint session of theirs |
| CareHistories.NoServerErrors | app/services/trust_level_service.py:124-125 | no call of any kind is answered by a server error in any reachable state; the failed assertion is the only candidate |
| CareHistories.RequestsAreLogged | app/repositories/care_session_repository.py:46-54 | in every reachable state the request log has one entry per session with its parties; a rematch entry has an earlier completed session of the same two users, and after a rematch all later requests of the two are rematches |
| CareSeeding.LazySeedingIsInvisible | app/repositories/point_account_repository.py:10-17 | in every run each answer and each balance is the same whether accounts are created on first use or seeded beforehand for any set of users |
| CareBooks.MoveKeepsBooks | app/services/point_ledger_service.py:55-83 | a step that moves points of one session out of the held part or to the provider keeps double entry, one reference per paid session and the agreement of every account |
| CareBooks.ResolveMoves | app/services/point_ledger_service.py:110-141 | ending a live hold, whatever the outcome, is such a move |
| CareBooks.TransferMoves | app/services/point_ledger_service.py:184-192 | settling without a hold is such a move |
| CareBooks.CreateHoldMoves | app/services/point_ledger_service.py:85-104 | creating a hold is such a move, with nothing paid |
| CareSteps.CreateRequestStep | app/services/care_session_service.py:70-137 | creating a request keeps the invariant; above all it books no slot twice |
| CareSteps.RequestFits | app/services/care_session_service.py:101-104 | a request that passes the complementary test against reachable schedules has different parties and at most 30 slots |
| CareSteps.AcceptStep | app/services/care_session_service.py:156-178 | accepting keeps the invariant, with and without the hold |
| CareSteps.CheckoutStep | app/services/care_session_service.py:226-253 | checking out and settling keeps the invariant |
| CareSteps.CancelStep | app/services/care_session_service.py:265-293 | cancelling and resolving the hold keeps the invariant |
| CareSteps.ReportNoShowStep | app/services/care_session_service.py:295-333 | reporting a no-show and resolving the hold keeps the invariant |
| CareModel.ListForUser | app/repositories/care_session_repository.py:21-29 | the listing holds exactly the sessions of which the user is a party |
| CareModel.ListedNewestFirst | app/repositories/care_session_repository.py:21-29 | it is in the order of the query: latest day first, and latest id first within a day |
| CareModel.FindHold | app/repositories/point_hold_repository.py:14-16 | finds a hold of the session, and finds none only if there is none |
| PointLedger.PointLedgerService.GetOrCreate | app/repositories/point_account_repository.py:10-17 | returns the account, creating it with 12 points when it is missing |
| PointLedger.PointLedgerService.GetBalance | app/services/point_ledger_service.py:38-40 | returns the balance, 12 for a user without an account, creating the account |
| PointLedger.PointLedgerService.AddTransaction | app/services/point_ledger_service.py:69-79 | adds one transaction and its two mirrored entries and changes nothing else |
| PointLedger.PointLedgerService.TransferPoints | app/services/point_ledger_service.py:55-83 | in place, equals the transfer function on the whole database |
| PointLedger.PointLedgerService.PlaceHold | app/services/point_ledger_service.py:85-108 | in place, equals creating the hold, refused at the balance limit |
| PointLedger.PointLedgerService.ReleaseHold | app/services/point_ledger_service.py:110-115 | in place, everything held goes back to the payer |
| PointLedger.PointLedgerService.ForfeitHold | app/services/point_ledger_service.py:117-141 | in place, everything held goes to the payee with a transaction that names the reason |
| PointLedger.PointLedgerService.ResolveHoldOnCancel | app/services/point_ledger_service.py:143-157 | in place, equals the resolution of a cancelled session's hold |
| PointLedger.PointLedgerService.ResolveHoldOnNoShow | app/services/point_ledger_service.py:159-173 | in place, equals the resolution of a no-show's hold |
| PointLedger.PointLedgerService.SettleHold | app/services/point_ledger_service.py:194-226 | in place, a live hold is settled for the worked slots up to its amount and the rest returned |
| PointLedger.PointLedgerService.SettleCareSession | app/services/point_ledger_service.py:175-226 | in place, equals settlement, and returns the transaction it made, if any |
| CareSessions.CareSessionService.Create | app/services/care_session_service.py:70-137 | in place, equals the request function, error for error, with the solo gate read from the trust tables and the request logged |
| CareSessions.CareSessionService.AcceptRequest | app/services/care_session_service.py:156-178 | in place, equals acceptance, with the grant of L1; the confirmation survives a refused hold |
| CareSessions.CareSessionService.RejectRequest | app/services/care_session_service.py:180-197 | in place, only the provider's requested session becomes REJECTED |
| CareSessions.CareSessionService.CheckIn | app/services/care_session_service.py:207-224 | in place, equals check-in; out of range needs a reason |
| CareSessions.CareSessionService.CheckOut | app/services/care_session_service.py:226-253 | in place, equals check-out with settlement |
| CareSessions.CareSessionService.CancelSession | app/services/care_session_service.py:255-293 | in place, equals cancellation with the hold's resolution |
| CareSessions.CareSessionService.ReportAbsence | app/services/care_session_service.py:295-333 | in place, equals the no-show report with the hold's resolution |
| AdminSuspend.AdminSuspendService.StopListed | app/services/admin_service.py:77-94 | the first loop cancels exactly the listed active sessions and collects them in order |
| AdminSuspend.AdminSuspendService.ReleaseListed | app/services/admin_service.py:98-101 | the second loop equals resolving the collected confirmed sessions one after the other |
| AdminSuspend.AdminSuspendService.Suspend | app/services/admin_service.py:67-103 | the marking of the target and both loops together equal the suspension function on the whole database |
| ScheduleSlots.FitsComplementaryMeans | app/services/care_session_service.py:101-104 | the bit test passes if and only if every slot of the range is free for the provider and taken for the requester |
| ScheduleSlots.NoSelfCover | app/services/care_session_service.py:101-104 | nobody passes the test against their own mask |
| ScheduleSlots.ComplementaryCountsAddUp | app/core/utils/schedule_slots.py:37-41 | the first count is of the slots where the first party works and the second is free, the second count the other way round; together they are the Hamming distance of the masks over 48 slots |
| ScheduleSlots.BitOfRangeMask | app/core/utils/schedule_slots.py:20-23 | a range mask has exactly the day's slots outside the range |
| ScheduleSlots.BitOfRange | app/services/care_session_service.py:34-35 | the range bits are exactly the slots of the range |
| WorkSchedule.TemplateShape | app/core/utils/schedule_slots.py:26-34 | which slots each template clears on its day, and that only a night reaches into the next day, where it clears slots 0 to 13 |
| WorkSchedule.HistoryDecidesMask | app/services/work_schedule_service.py:18-47 | after any registrations a day shows the last template registered for it, with slots 0 to 13 also cleared exactly when a night was registered for the day before after that (or at all, if there was none); a row exists exactly when one of the two happened |
| WorkSchedule.LongestBusyRun | app/services/work_schedule_service.py:30-47 | no schedule that registrations can produce has more than 30 busy slots in a row |
| WorkSchedule.RegisterKeepsShapes | app/services/work_schedule_service.py:30-47 | every registration keeps all masks of the shape of a template with or without a night's tail |
| WorkSchedules.WorkScheduleService.GetOrCreate | app/services/work_schedule_service.py:18-28 | in place, returns the row, creating a free one when it is missing |
| WorkSchedules.WorkScheduleService.RegisterShift | app/services/work_schedule_service.py:30-47 | in place, equals the registration function: the day overwritten, the next day narrowed |
| TrustTheorems.HistoryReplaysToLevel | app/services/trust_level_service.py:75-188 | replaying a pair's history from L1 gives its level; every row is one step, upward without an actor, downward by an administrator |
| TrustTheorems.CountIsCompletedSessions | app/services/trust_level_service.py:106-145 | the joint-session count is the number of completed joint sessions of the unordered pair, and completed means confirmed by both |
| TrustTheorems.PromotionsAreEarned | app/services/trust_level_service.py:126-141 | promotions to L3 never outnumber completed joint sessions, and a pair at L3 has one confirmed by both |
| TrustTheorems.SoloRequestsAreEarned | app/services/trust_level_service.py:45-50 | passing the solo gate implies a joint session of the two that both confirmed |
| TrustOutcomes.PromotedWhenBothAreSatisfied | app/services/trust_level_service.py:70-141 | the confirmation that is the only one missing promotes an L2 pair if and only if the number of completed sessions, this one included, meets what each of the two requires, 3 unless set otherwise; one history row and one event record it; any other level stays, and so do the requirements |
| TrustOutcomes.ConfirmOutcome | app/services/trust_level_service.py:106-145 | in every reachable state the exact answer for every id and user; a party's confirmation sets their own flag and not the other one, the session is completed exactly when both are set, every other row stays, and one more session is counted for the pair, and none for others, exactly when this confirmation completes it |
| TrustOutcomes.FlagsHaveCalls | app/services/trust_level_service.py:106-116 | in every run a flag of a joint session is set if and only if that party confirmed it after it was scheduled; so a completed one was confirmed by calls of two different users |
| TrustOutcomes.GateOutcome | app/services/trust_level_service.py:45-50 | the gate passes a pair, in either order, exactly at L3, and answers 403 otherwise |
| TrustOutcomes.GrantOutcome | app/services/trust_level_service.py:52-68 | a pair without a relationship gets one at L1 with no joint session, under the lower id first, and one event; an existing one and all others stay |
| TrustOutcomes.ScheduleOutcome | app/services/trust_level_service.py:75-104 | 404 exactly without a relationship; otherwise an unconfirmed joint session is added and the pair goes from L1 to L2, with row and event, or stays where it is; all else stays |
| TrustOutcomes.SettingOutcome | app/services/trust_level_service.py:147-156 | less than 1 is refused and changes nothing; otherwise the user requires the number and nobody else's requirement changes |
| TrustOutcomes.DemotionOutcome | app/services/trust_level_service.py:158-188 | the exact answer in every case; an administrator lowers L3 to L2 or L2 to L1, with a row naming the administrator and an event; the count and all other pairs stay |
| TrustOutcomes.GrantsHaveCalls | app/repositories/trust_relationship_repository.py:7-20 | in every run two users have a relationship if and only if L1 was granted to them, in either order |
| TrustOutcomes.RequirementIsLastSet | app/services/trust_level_service.py:147-156 | in every run a user's requirement is the last one they set that was not refused, or 3, whatever rows were created on first use |
| TrustOutcomes.EventsMirrorHistory | app/services/trust_level_service.py:87-141 | in every run the logged level changes are the history's, row by row and in order |
| TrustOutcomes.ChangesHaveCalls | app/services/trust_level_service.py:75-188 | in every run a downward history row goes back to a demotion of the pair by the administrator it names, and a promotion to L2 to a joint session the two scheduled |
| TrustTheorems.NeverCrashes | app/services/trust_level_service.py:106-145 | the assertion that the relationship exists cannot fail |
| TrustTheorems.TransitionRateAtMostOne | app/services/admin_service.py:40-43 | entries into L2 equal entries into L3 plus pairs now at L2 plus drops to L1, so the rate of the metrics lies between 0 and 1, demotions or not |
| TrustLevels.TrustLevelService.CheckSolo | app/services/trust_level_service.py:45-50 | equals the gate function |
| TrustLevels.TrustLevelService.Grant | app/services/trust_level_service.py:52-68 | in place, creates a missing relationship at L1 with its event and leaves an existing one alone |
| TrustLevels.TrustLevelService.Schedule | app/services/trust_level_service.py:75-104 | in place, equals scheduling, with the promotion from L1 |
| TrustLevels.TrustLevelService.RequiredCount | app/services/trust_level_service.py:70-73 | creates missing settings of both and returns the larger requirement |
| TrustLevels.TrustLevelService.Confirm | app/services/trust_level_service.py:106-145 | in place, equals confirmation, with completion, count and promotion |
| TrustLevels.TrustLevelService.SetCount | app/services/trust_level_service.py:147-156 | in place, equals setting the requirement; less than 1 is refused |
| TrustLevels.TrustLevelService.DemotePair | app/services/trust_level_service.py:158-188 | in place, equals demotion by one level; the count is kept |
| TrustScore.RatesAreUnit | app/services/trust_score_service.py:52-98 | rating, no-show and journal rates lie between 0 and 1 in every state that keeps the invariant |
| TrustScore.RatesAreShares | app/services/trust_score_service.py:52-89 | the rating is the mean of the user's ratings brought from 1 to 5 to 0 to 1, or a half without any; the no-show rate is the share of the sessions that ended with the user in either role that they missed, or 0; the journal rate is the share of their check-outs with a journal, or 1 |
| TrustScore.ScoreInRange | app/services/trust_score_service.py:85-98 | with non-negative weights every score in every reachable state lies between 0 and the sum of the weights |
| TrustScoreBounds.InRangeExactlyWhenNonNegative | app/services/trust_score_service.py:85-98 | all reachable scores of all users lie between 0 and the sum of the weights if and only if no weight is negative |
| TrustScoreBounds.AcceptedWeightsOutOfRange | app/services/trust_score_service.py:31-50 | weights with a negative one that sum to 1, so are accepted, put a new user's score above their sum |
| TrustScoreBounds.RatesAreReached | app/services/trust_score_service.py:52-98 | for every number n of no-shows, every rating and with or without a journal, some run leaves a helper with no-show rate n / (n + 1), that rating and journal rate 1 or 0, and with the score these give under any weights |
| TrustScore.WeightStore.UpdateWeights | app/services/trust_score_service.py:31-50 | which weights are accepted, and that the replaced ones are kept in the history |
| RateLimits.RunRefines | security_kit/guards.py:95-132 | over every run with a clock that does not go back, the pruned queues answer exactly like a count over the full history of accepted calls; retry_after and sweep change no answer |
| RateLimits.AllowRefines | security_kit/guards.py:105-113 | allow succeeds if and only if fewer than the maximum of accepted calls lie in the window (at - window, at] |
| RateLimits.SweepRefines | security_kit/guards.py:127-132 | a sweep leaves the history the limiter stands for unchanged |
| RateLimits.WindowNeverOverfull | security_kit/guards.py:105-113 | no window of that length, wherever it ends, holds more accepted calls since the key's last reset than the maximum |
| RateLimits.RetryAfterInAnyRun | security_kit/guards.py:115-121 | in every reachable limiter retry_after fails if and only if the maximum is below 1 and answers 0 if and only if a call passes now; otherwise a later call passes exactly from when the oldest accepted call in the window leaves it, and the answer is that wait in seconds, brought to the next whole number above |
| RateLimits.RateLimiter.PruneKey | security_kit/guards.py:95-103 | in place, the loop drops exactly the expired front of one queue |
| RateLimits.RateLimiter.TryAllow | security_kit/guards.py:105-113 | in place, equals the allow function |
| RateLimits.RateLimiter.SecondsToWait | security_kit/guards.py:115-121 | in place, equals the retry_after function |
| RateLimits.RateLimiter.Clear | security_kit/guards.py:123-125 | in place, forgets one key |
| RateLimits.RateLimiter.SweepAll | security_kit/guards.py:127-132 | in place, the loop prunes every queue and drops the empty ones |
| Lockouts.PauseInEveryBlock | security_kit/guards.py:53-69 | whatever the clock reads, among any maximum + 1 consecutive counted failures since the last success or reset some failure comes at least a lock's length after the one before it |
| Lockouts.FailuresAreThrottled | security_kit/guards.py:53-69 | in runs whose clock never goes back, no half-open interval of a lock's length contains more counted failures since the last success or reset than allowed |
| Lockouts.ThrottlesAnyClockExactly | security_kit/guards.py:53-69 | a policy keeps that bound in all runs, whatever the clock reads, if and only if it locks after a single failure or for no time at all |
| Lockouts.ClockBackOverfills | security_kit/guards.py:53-69 | for every other policy a run whose clock goes back once counts one failure too many in a lock's length |
| Lockouts.LockedExactlyAfterFullBlock | security_kit/guards.py:41-69 | in every run, whatever the clock reads, the stored count never exceeds the maximum, and the account is locked if and only if a full block of failures ended less than a lock's length ago |
| Lockouts.LoginInAnyRun | auth_kit/service.py:280-324 | in every run the exact answer to a login: welcome exactly with the right password for an active account that is neither being withdrawn nor locked by a full block of failures, which clears the count; only a wrong password is counted, from 0 again after an expired lock; a refusal for any other reason changes nothing |
| Lockouts.FlagsAreLastSet | auth_kit/service.py:291-313 | in every run no login changes the flags a login is judged by |
| Lockouts.WaitingEndsTheLock | security_kit/guards.py:46-51 | the announced minutes are 0 if and only if there is no lock, and otherwise the time left brought to the next whole number above, so waiting them always ends the lock |
| Lockouts.UserRow.Login | auth_kit/service.py:280-324 | in place, equals authentication: deactivation, lock, password and activity checked in this order, failures counted, success clearing the count; five failures lock for fifteen minutes |
| Lockouts.UserRow.ResetPassword | auth_kit/service.py:558-560 | in place, clears count and lock |
| RefreshTokens.OneLiveTokenPerLineage | auth_kit/service.py:332-373 | of all tokens that descend from one session-issuing event at most one is live, in every run |
| RefreshTokens.NoTokenRotatesTwice | auth_kit/service.py:342-373 | no token is ever exchanged twice |
| RefreshTokens.RotationHandsOn | auth_kit/service.py:342-373 | a rotation succeeds if and only if the token is live and its account usable, and then the old token is dead and the new one continues its lineage |
| RefreshTokens.LiveExactly | auth_kit/service.py:332-395 | after any call of any run a token is live exactly when it was just issued, or was live and is not the one exchanged, logged out or purged, nor of the user whose revoked token was presented or whose tokens were all revoked; rows go away only by a purge and keep their user |
| RefreshTokens.ReuseEndsAllSessions | auth_kit/service.py:356-364 | once a revoked token of a user is presented, or all tokens are revoked as a password reset does, no token the user held by then ever rotates again |
| RefreshTokens.TokenTable.RotateToken | auth_kit/service.py:342-373 | in place, equals rotation |
| RefreshTokens.TokenTable.RevokeAllForUser | auth_kit/service.py:390-395 | in place, revokes exactly the user's tokens |
| RefreshTokens.TokenTable.LogoutToken | auth_kit/service.py:375-388 | in place, revokes the presented token and nothing else |
| Identities.PhonesStayDistinct | auth_kit/service.py:244-263 | in every reachable state live phones are pairwise distinct and disjoint from the sealed ones, and no call ever violates the unique constraint of the sealed table |
| Identities.SealedExactlyOnDeletion | auth_kit/service.py:125-129 | a call seals exactly the phones of the sanctioned accounts it deletes, and unseals none |
| Identities.SanctionFollowsThePhone | auth_kit/service.py:107-123 | once an account is sanctioned, its phone can never sign up again and never belongs to another account, however the run goes on |
| Identities.SealedForGood | auth_kit/service.py:107-113 | a sealed phone stays sealed, belongs to no account and cannot sign up |
| Identities.SignupOutcome | auth_kit/service.py:236-272 | the exact answer of a signup in every case; success adds one unsanctioned, active account with the phone and changes nothing else, a refusal changes nothing |
| Identities.GuestAndSanctionOutcome | auth_kit/service.py:115-123 | a sanction marks exactly the account it names and is refused with 404 only for a missing one; a guest account has no phone |
| Identities.WithdrawalOutcome | auth_kit/service.py:567-602 | in every reachable state the exact answers of a withdrawal and of its cancellation; without a grace period the account and no other is deleted, with one it is inactive and due at the end of it; the cancellation restores a deactivated account and no other |
| Identities.PurgeOutcome | auth_kit/service.py:604-619 | in every reachable state the purge goes through and deletes exactly the accounts whose time has come |
| Identities.AccountsHaveCalls | auth_kit/service.py:567-619 | in every run a phone goes back to a signup with it, a sanction to a call that recorded it and a pending deletion to the withdrawal of that account at that time; and an account that is gone was withdrawn with the right password and, if there was a grace period, purged after it |
| Identities.AuthService.SignUp | auth_kit/service.py:236-272 | in place, equals signup with its checks in the code's order, outdated terms (409) apart from missing ones (400) |
| Identities.AuthService.RecordSanctionOf | auth_kit/service.py:115-123 | in place, marks an existing account |
| Identities.AuthService.WithdrawAccount | auth_kit/service.py:567-586 | in place, equals withdrawal: sealed and deleted at once without a grace period, deactivated with one |
| Identities.AuthService.CancelWithdrawalOf | auth_kit/service.py:588-602 | in place, equals the cancelled withdrawal |
| Identities.AuthService.PurgeDeactivated | auth_kit/service.py:604-619 | the row-by-row loop, in whatever order the rows come, seals and deletes exactly the accounts whose time has come, or nothing at all when some phone would be sealed twice |

## Left out

- Concurrent transactions: calls are serial. Only the two commits inside `accept` are kept apart.
- Rollback of a lazily created account when its call is refused: the model keeps the account; by `CareSeeding.LazySeedingIsInvisible` nothing can tell.
- Deletion of users and children with its cascades: users and child ownership are fixed in the points model; accounts are deleted in `Identities` only.
- User rows in the points model: it keeps only the marks a suspension sets; sanctions and deletion are modelled in `Identities`.
- Distance at check-in, H3 cells, and the meeting point: whether the provider is out of range is an input of the call.
- Several clock readings in one call (suspension, withdrawal, login): one reading per call.
- Floating point: scores are reals, the limiter's seconds are whole microseconds.
- Passwords, e-mail and phone verification, terms, JWT signatures and expiry, hashing: an accepted or refused check is an input, a decoded token is its id, a phone hash is an opaque string. Rows of expired tokens may be purged at any time.
- Evaluations and care journals as classes: `SubmitEvaluation` and `WriteLog` are functions only; tags and texts are not kept.
- Notifications, reasons and texts on rows, and all logged events except requests and trust-level transitions.
- `list_mine`, `list_entries_for_user`, `list_range`: reads that only feed a screen.
- `NonceStore`: the pruning of the rate limiter in a simpler setting.
- Metrics other than the L2-to-L3 rate: plain quotients, and the availability rate has no bound of 1.
- Chat, recommendation, questionnaires, guardian profiles, routers, frontend and migrations.
