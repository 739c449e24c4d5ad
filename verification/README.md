# Money to access: a model of the Rillza VPN bot

The bot sells VPN subscriptions. A payment row walks `pending -> paid ->
provisioned` (with a detour through `expired`), a subscription row collects days
and a device count, and an account on a foreign panel is driven to match it. The
tap on "I paid", the poller, the provisioning watcher, the late-money sweep, the
trial button, the admin, the expiry sync and the reconciler all write these rows,
each through a session whose cached copies are never refreshed on commit.

The model has two layers and a common meaning.

* `ledger.dfy` and `book.dfy` are the meaning: per user, the list of durations
  granted. The expiry and the device count are functions of that list, and one
  atomic step appends one entry that no account holds yet.
* `protocol.dfy` is the step machine: any number of workers, a program counter
  each, private writes, row and advisory locks and a session cache that may be
  stale; one SQL statement, commit or HTTP call per step, a death allowed between
  any two. `safety.dfy` is the invariant of every reachable state,
  `refinement.dfy` shows that every run is a run of the book, `guarantees.dfy`
  states what follows for every schedule, `liveness.dfy` that no reachable state
  is a trap for money, `queues.dfy` that no money falls between the job queues.
* The imperative layer is the code's own shape: `unitofwork.dfy` (one
  transaction), `panel.dfy` (a panel behind a wire that loses requests and
  answers, and the retrying client), `subscriptions.dfy`, `payments.dfy`,
  `sweeps.dfy`, `access.dfy` (trial, admin, expiry sync), `reconcile.dfy` and
  `upkeep.dfy` (the reconciler as a job). Every job may start from the committed
  rows of any reachable state (`Payments.ReachableIsConsistent`,
  `Upkeep.ConsistentRowsAreSeparate`). The methods that grant days say which ledger
  entries they added; the reconciler's job says that it added none. So the two
  layers share one notion of what a row is worth.
* `solo.dfy` and `soloprograms.dfy` show that the two layers are one program: a
  worker of the step machine that nobody races takes the rows exactly where the
  job's method takes them, program by program.

Beside them stand the smaller cores with a state of their own: `broadcast.dfy`,
`logsink.dfy`, `ratelimit.dfy`, and the reminders: `reminders.dfy` is the history of
one row among all its writers, `timing.dfy` says when each notice goes out once and in
its window, `records.dfy` keeps such a history while it is made, and
`notifications.dfy` is the job that makes it (with the messenger in `telegram.dfy` and
ordered listings in `sorting.dfy`). A reminder is a program of the step machine too,
so the laws of the protocol hold while reminders race the other writers, and
`rowhistories.dfy` shows that what the machine does to a row in a run is such a
history: the reminder laws hold for runs.

Properties that hold only under a condition are stated with it, both ways: the
device count ignores the order of payments unless two newest invoices of one
moment disagree (`Ledger.OrderMattersExactlyOnTies`); swapping two renewals is
harmless exactly if the durations are equal or neither order had lapsed
(`Ledger.SwapIsHarmlessExactly`); one reconciler run is enough except for pending
rows whose device limit alone had drifted (`Reconcile.OneVisitSettlesAlmost`); a
pending or expired payment is in one place exactly if it has a time to live
(`Queues.OnePlaceExactly`); an invoice is a candidate of `k` sweeps exactly if `k`
gaps and the expirer's delay fit into the lookback
(`Queues.EveryInvoiceIsSweptEnough`).

In one respect the code does less than its documentation says. The reminder module
promises that a notice cannot go out twice, and that the nearer one wins. A pass
lists its rows once and claims them one by one, and the claim looks at the marker
alone: neither at the date of the row nor at what the marker was last cleared for. The
promise fails in three ways, each with its exact condition.

* A row renewed between its listing and its claim is still sent the old notice, and the
  new cycle is marked with it. A stale one-day notice goes out twice in that cycle, and
  before the three-day one (`Reminders.StaleClaimTellsTwice`). A one-day notice leaves
  every future of its cycle in order if and only if three days are no longer ahead of
  the row at the claim (`Reminders.NoticeIsSafeExactly`).
* A stale three-day notice takes the place of the real one, which is then held for a
  repeat (`Reminders.StaleClaimSilencesTheRealOne`). In a cycle whose window is covered
  the three-day notice goes out in its window if and only if every claim of it found
  the row still in the window (`Timing.ThreeDaysInTimeExactly`). The same check decides
  about each stage on its own (`Timing.StageInTimeExactly`) and about the whole promise,
  each notice once, in its window and in order (`Timing.PromiseHoldsExactly`). It is the
  check that `mark_notified` leaves out.
* The reconciler mends an account by writing the row's own date over itself
  (app/services/reconcile_service.py:142-146), and that clears the marker: the same
  notice goes out again for the same date, with no stale claim
  (`Timing.ClearTellsAgain`). A date told in time is told the stage again if and only if
  somebody cleared the marker, without a new date, before the later pass had loaded the
  row (`Timing.DateIsToldAgainExactly`).

Without a commit that clears the row between a listing and its claim each cycle is in
order (`Reminders.UndisturbedCycleIsInOrder`).

Panel answers, provider verdicts, Telegram's answers, the clock, crashes and the
scheduler's choices are parameters or nondeterministic choices.

## Model

| member | source | states |
|---|---|---|
| Ledger.DaysAreConserved | app/services/payment_service.py:293-306 | expiry = first moment + all durations + all lapse gaps, and lies between first moment + sum and latest moment + sum |
| Ledger.ExpiryIsBestStart | app/services/payment_service.py:303-304 | the repeated `max(now, expires) + duration` equals the best starting point over all grants, a closed form |
| Ledger.ExpiryIgnoresOrder | app/services/payment_service.py:260-262 | same opening moment, same durations in any order, no lapse: same expiry |
| Ledger.SwapIsHarmlessExactly | app/services/payment_service.py:303-304 | swapping two renewals changes nothing if and only if durations are equal or no order lapsed |
| Ledger.DevicesFollowNewest | app/services/payment_service.py:309-315 | the device count is that of a newest bought invoice, of equals the one applied last |
| Ledger.DevicesIgnoreOrder | app/repositories/payments.py:220-246 | same invoices, newest ones agreeing: same device count, whatever the order and whatever else was granted |
| Ledger.OrderMattersExactlyOnTies | app/repositories/payments.py:220-246 | order independence holds if and only if no two newest invoices disagree on devices |
| Safety.RunKeepsInv | app/services/payment_service.py:150-348 | the invariant (latch, target, claims, locks, what each stale copy may be trusted for) holds after every schedule of steps, crashes included |
| Safety.CommitKeepsInv | app/services/uow.py:43-69 | a commit that carries any worker's writes keeps the invariant of all the others and only adds facts |
| Safety.LostClaimHasSubscription | app/services/payment_service.py:283-291 | a worker that loses the claim on the latch holds a subscription: the raise is unreachable |
| Safety.InsertNeverCollides | app/services/trial_service.py:61-118 | at the moment of an insert the user has no row: trial, purchase and grant never attempt a second one |
| Refinement.CreditSimulates | app/services/payment_service.py:249-321 | a transaction that claims the latch and writes the expiry is one atomic credit of an entry nobody holds |
| Refinement.StepSimulates | app/services/payment_service.py:249-321 | every step of the machine is one ledger step or none |
| Refinement.RunRefinesLedger | app/services/payment_service.py:1-18 | over every schedule the committed rows are exactly what the book says, and no payment is in the book twice |
| Guarantees.DaysLandExactlyOnce | app/repositories/payments.py:98-116 | in every reachable state the user's account holds each latched payment once and no other, and the row's expiry is that account |
| Guarantees.ExpiryIsConserved | app/services/payment_service.py:303-321 | in every reachable state expiry = opening + durations + lapse gaps, bounded by the latest grant, which is in the past |
| Guarantees.DevicesFollowNewestPurchase | app/services/payment_service.py:309-315 | in every reachable state devices are those of an applied payment no other is newer than, or the default |
| Guarantees.DevicesIgnoreTheSchedule | app/repositories/payments.py:220-246 | two arbitrary runs that applied the same payments agree on the device count unless a tie disagrees |
| Guarantees.ExpiryIgnoresTheSchedule | app/services/payment_service.py:260-262 | two arbitrary runs that granted the same durations without a lapse agree on the expiry |
| Guarantees.PaymentsAreConsistent | app/repositories/payments.py:65-134 | provisioned implies applied, applied implies settled with a subscription, target set exactly for settled money |
| Guarantees.HistoryIsNeverRewritten | app/repositories/payments.py:136-166 | between any two points of a run settled money stays settled with its target, latches stay, expiries never decrease, no row disappears |
| Guarantees.NoWorkerEverRaises | app/services/payment_service.py:283-291 | no schedule reaches "applied without a subscription", a colliding insert or a vanished row |
| Guarantees.ExpiredHasRunOut | app/repositories/subscriptions.py:86-107 | a subscription called EXPIRED has an expiry in the past, in every interleaving |
| Guarantees.TrialLatchIsHonest | app/repositories/users.py:52-69 | the latch is set if and only if the user's row has origin TRIAL |
| Guarantees.TrialIsNeverRefusedToTheRegistered | app/services/trial_service.py:98-102 | a registered user who reaches the latch finds it unspent, so "already used" is never the answer |
| Liveness.MoneyIsNeverTrapped | app/services/payment_service.py:370-377 | from every reachable state every payment that was not canceled has a continuation (deaths of the lock holders, then one worker) that delivers it with its days |
| Liveness.EverybodyDies | app/services/uow.py:43-69 | from every state deaths alone reach one without foreign locks and with the committed rows untouched |
| Queues.OnePlaceExactly | app/repositories/payments.py:168-207 | in exactly one queue (or not yet late, or given up) if and only if paid, or pending/expired with a time to live |
| Queues.QueriesExactly | app/repositories/payments.py:168-207 | membership of the four listings by status and by the end of the invoice, boundaries included; without a time to live, none but the paid |
| Queues.NoMoneyFallsBetween | app/services/payment_service.py:101-111 | every payment of every reachable state has a time to live, hence exactly one place while undelivered |
| Queues.EveryInvoiceIsSweptEnough | app/services/payment_service.py:39-41 | sweeps at most `gap` apart have every invoice, found EXPIRED at most `delay` after its end, in their queue at least `k` times if and only if k * gap + delay fits into seven days |
| Queues.RunsSweepEnough | app/services/payment_service.py:412-415 | the same over the sweep moments of any run of the protocol, through the queue the sweep queries |
| Queues.WindowIsTheQueue | app/repositories/payments.py:196-207 | a sweep whose window contains the end of a closed invoice has it among its candidates |
| Panel.ServingTwiceIsServingOnce | tests/fake_panel.py:28-129 | a request that took effect and is sent again changes nothing; a repeated create answers conflict |
| Model.ShowNatIsDecimal | app/services/subscription_service.py:104 | the panel id is the decimal form of the Telegram id |
| Panel.Client.Request | app/integrations/celerity/client.py:180-214 | bounded attempts, only transient failures retried; the panel is as before or as one delivery leaves it, and an answer means delivered |
| Panel.Client.ResolveGroup | app/integrations/celerity/client.py:222-232 | the group is remembered; no error exactly if it is known; the panel is untouched |
| Panel.Client.CreateOrGet | app/integrations/celerity/client.py:243-280 | a normal return means the account exists and is the one returned; a new one is as asked for |
| Subscriptions.DeliveryIsIdempotent | app/services/subscription_service.py:111-233 | repeating provision, push or one after the other changes the account no further |
| Subscriptions.SubscriptionService.Provision | app/services/subscription_service.py:111-160 | whatever the wire loses: account unchanged or matching the row, nobody else touched; normal return means delivered and committed |
| Subscriptions.SubscriptionService.PushState | app/services/subscription_service.py:181-233 | the same with the account always rewritten and enabled; at most five requests' worth of attempts |
| Subscriptions.SubscriptionService.Extend | app/services/subscription_service.py:162-179 | the later date is committed before the panel hears of it and survives its silence |
| Subscriptions.SubscriptionService.Revoke | app/services/subscription_service.py:269-277 | the row is revoked whatever the panel answers; a normal return means the account is disabled |
| UnitOfWork.Session.MarkPaid | app/repositories/payments.py:65-96 | the update hits exactly a pending row and changes that row only |
| UnitOfWork.Session.MarkDaysApplied | app/repositories/payments.py:98-116 | the latch is claimed exactly if it was free |
| UnitOfWork.Session.MarkProvisioned | app/repositories/payments.py:118-134 | only a paid payment can be delivered |
| UnitOfWork.Session.MarkExpired | app/repositories/payments.py:136-148 | only a pending payment can be closed |
| UnitOfWork.Session.Reopen | app/repositories/payments.py:150-166 | only an expired payment can be reopened |
| Payments.ReachableIsConsistent | app/services/uow.py:43-69 | the committed rows of every reachable state are rows a job may start from, with the book of the grants committed so far |
| Payments.DaysAreCredited | app/services/payment_service.py:279-320 | claiming the latch and adding the days together is one atomic credit and keeps the rows consistent |
| Payments.PaymentService.CreateInvoice | app/services/payment_service.py:83-146 | the row exists whatever the provider answers, with the clock's reading and the time to live after it; a refused invoice is closed at once; the ledger is unmoved |
| Payments.PaymentService.NewestAppliedCreatedAt | app/repositories/payments.py:220-246 | the maximum over the user's other applied payments, none if there is none |
| Payments.PaymentService.MarkPaid | app/services/payment_service.py:215-247 | status, moment and the target projected from the later of now and the expiry are frozen together, for a pending payment only |
| Payments.TargetIsProjected | app/services/payment_service.py:215-247 | the frozen target is the expiry that applying the days at that moment would give |
| Payments.PaymentService.ApplyDays | app/services/payment_service.py:249-321 | latched or not before, afterwards the days are in once, committed with the latch, as one ledger entry or none |
| Payments.PaymentService.Deliver | app/services/payment_service.py:323-348 | days first, whatever the panel does; provisioned exactly if the account says what the row says, and then a buyer who came without a token has an active row with the moment and the account's token, any other an enabled account and the status the days gave; without the panel the row waits as it is; nobody else touched |
| Payments.PaymentService.CheckAndFinalize | app/services/payment_service.py:150-213 | outcome and new row for every status and verdict, with the buyer's row after a delivery as in Deliver; another user's payment is unknown; only this payment, its row and its account move, and only forward |
| Payments.OutcomesSayWhatHappened | app/services/payment_service.py:150-213 | each outcome if and only if the row's status and the provider's word call for it; "paid, pending provisioning" only while the panel is not up |
| Sweeps.PollPending | app/services/payment_service.py:352-368 | every live invoice goes through the funnel once; the list is exactly what was delivered; nobody else moves |
| Sweeps.FinishProvisioning | app/services/payment_service.py:370-377 | every user gains exactly the durations owed plus the lapse gap, panel or no panel; with the panel up nothing stays stuck; delivered in the order in which the money was seen; a run with nothing stuck changes nothing |
| Sweeps.SweepGains | app/services/payment_service.py:323-348 | the new entries of each account are exactly the paid, unlatched invoices, and the expiry moved by their sum and the gap |
| Sweeps.ExpireStale | app/services/payment_service.py:379-387 | exactly the pending invoices whose end has come are closed, nothing else changes, none is left |
| Sweeps.SweepLatePayments | app/services/payment_service.py:389-449 | exactly the expired invoices of the last seven days that the provider calls paid are reopened and go through the funnel, where it is asked again; the others are left closed |
| Sweeps.SecondAnswerDecides | app/services/payment_service.py:189-208 | reopened money is settled if and only if the second answer is paid too; otherwise the invoice stays pending, or is closed again if refused |
| Access.GiftIsCredited | app/services/trial_service.py:99-117 | a trial or a grant is one atomic credit; a trial only opens an account |
| Access.Grant | app/services/trial_service.py:61-118 | all four outcomes with their exact conditions; latch and row land together; an unfinished trial is finished, not granted again; who got the trial has an active row with the account's token |
| Access.HandleGrant | app/bot/routers/admin.py:258-303 | one ledger entry per tap whatever the panel answers; the date moves, the device count does not; a first grant that reached the panel is active with the account's token, a later one keeps its token and is active on an enabled account |
| Access.HandleRevoke | app/bot/routers/admin.py:306-331 | the row is revoked whatever the panel answers, and nothing else of it changes; with the panel up the account is switched off; no other account is touched |
| Access.SyncExpired | app/scheduler/jobs.py:186-195 | exactly the active rows that have run out are called expired, in one commit, unless a statement raises |
| Access.RunSyncExpired | app/scheduler/jobs.py:93-107 | a failure rolls back, so the job is all or nothing; after a success exactly the active rows whose date is not after the moment are expired and unmarked, every other row is as it was |
| UnitOfWork.Session.Rollback | app/services/uow.py:65-69 | uncommitted writes vanish |
| Reconcile.NothingToDoExactlyWhenSettled | app/services/reconcile_service.py:115-195 | a visit repairs nothing if and only if the row and its account already agree: dates at most a minute apart either way, the same limit, enabled exactly if active; closed rows without a live account |
| Reconcile.OneVisitSettlesAlmost | app/services/reconcile_service.py:115-188 | one visit settles a row if and only if it was not a pending row whose limit was off and whose date was right; that one then only has to hear that its account is fine |
| Reconcile.TwoRunsConverge | app/services/reconcile_service.py:63-101 | after two undisturbed runs every row agrees with its account to the minute and a third repairs nothing; what the second repairs is named exactly |
| Reconcile.SettledStaysSettled | app/services/reconcile_service.py:63-101 | a fixpoint stays one and no account moves |
| Reconcile.FixpointExactly | app/services/reconcile_service.py:115-195 | a run finds nothing to do if and only if every row agrees with its account to the minute, either way |
| Reconcile.HeadingsExactly | app/services/reconcile_service.py:115-188 | under which heading a repair is counted, if and only if in terms of dates, limits and statuses |
| Reconcile.WholeListing | app/services/reconcile_service.py:103-113 | as many listed accounts as the panel counts are all accounts |
| Reconcile.ReconcileService.LoadPanelUsers | app/services/reconcile_service.py:103-113 | paging ends, with the whole account map or nothing |
| Reconcile.ReconcileService.ReconcileOne | app/services/reconcile_service.py:115-188 | one visit mends row and account as planned and counts it under the right heading; after a panel error the account is as it was or mended; date, device count and origin never change, and nothing else is touched |
| Reconcile.ReconcileService.Run | app/services/reconcile_service.py:63-101 | under any panel errors: no row changes date or device count, every account is as it was or mended, every row without a panel error is mended, the report counts exactly the errors and the repairs, orphans are exactly the sorted rest and untouched, closed rows keep their accounts off; with the panel up it mends everything |
| Upkeep.ReconcileJob | app/scheduler/jobs.py:175-184 | a run from the rows of any reachable state leaves the same ledger, whatever the panel does |
| Upkeep.ConsistentRowsAreSeparate | app/services/subscription_service.py:76-109 | in every reachable state no two rows drive the same account |
| Solo.FinalizeAlone | app/services/payment_service.py:150-348 | the step machine, run by a worker that nobody races, takes the rows where the funnel of the jobs takes them, for every verdict and every answer of the panel |
| Solo.FunnelIsTheJob | app/services/payment_service.py:150-348 | and that is a finalisation as CheckAndFinalize promises it |
| Solo.LateSweepAlone | app/services/payment_service.py:389-449 | a late payment is reopened, committed and sent through the same funnel |
| SoloPrograms.TrialAlone | app/services/trial_service.py:61-118 | the trial button of the machine grants, finishes or refuses as Grant does |
| SoloPrograms.GrantAlone | app/bot/routers/admin.py:258-303 | the admin's grant of the machine commits the days, then provisions a first row and pushes a later one |
| SoloPrograms.RevokeAlone | app/bot/routers/admin.py:306-331 | the admin's revoke of the machine commits before it calls |
| SoloPrograms.ReconcileAlone | app/services/reconcile_service.py:115-188 | each repair of the machine, on an open row and on a closed one |
| SoloPrograms.RepairIsTheVisit | app/services/reconcile_service.py:115-188 | the repair that the plan calls for leaves the row as an undisturbed visit promises |
| SoloPrograms.SyncAlone | app/scheduler/jobs.py:186-195 | the expiry sync of the machine expires exactly the due rows once it has visited them |
| SoloPrograms.ExpireAlone | app/services/payment_service.py:379-387 | what the machine's expirer visits is closed, and nothing else changes |
| SoloPrograms.InvoiceAlone | app/services/payment_service.py:83-146 | the machine's invoice is the job's, closed if the provider refuses |
| SoloPrograms.RemindAlone | app/services/notification_service.py:51-74 | a reminder of the machine marks exactly the listed row that is neither marked nor too short a trial |
| Broadcasts.OneMorePassed | app/services/broadcast_service.py:100-102 | attempting the next user extends the exact record of attempts, counters, flags and cursor |
| Broadcasts.CursorMoves | app/repositories/users.py:106-119 | blocking a user while paging changes the audience only behind the cursor |
| Telegram.Bot.Send | app/services/broadcast_service.py:118-145 | sent exactly if a try got through, blocked exactly if the first was refused, a second try exactly under flood control |
| Broadcasts.BroadcastService.NextPage | app/repositories/users.py:106-119 | the smallest reachable ids past the cursor, 25 of them or all that are left |
| Broadcasts.BroadcastService.SendOne | app/services/broadcast_service.py:118-145 | one try, one more under flood control; flagged and counted blocked exactly if the first reply is a refusal, sent exactly if a try got through, failed otherwise |
| Broadcasts.BroadcastService.Claim | app/repositories/broadcasts.py:25-39 | a draft is taken once |
| Broadcasts.BroadcastService.Run | app/services/broadcast_service.py:81-116 | attempted are exactly the foremost reachable ids, ascending, once each, one message after the other; on record, each is flagged exactly if refused, and the counters grew by the messages that got through, were refused and failed; a death loses at most a page; a finished run reached everybody |
| Broadcasts.BroadcastService.Campaign | app/services/broadcast_service.py:62-79 | over any number of deaths and restarts, copies exceed the audience by at most 25 per death |
| Broadcasts.BroadcastService.ResumeStale | app/services/broadcast_service.py:62-79 | exactly the running broadcasts last written before the cutoff are run, in order of id, and end done if the process lives |
| LogSink.SplittingLosesNothing | app/core/logging.py:41-51 | at least one chunk, all full but the last, none too long, joined they are the text; only a limit below one fails |
| LogSink.SameErrorExactly | app/core/logging.py:71-82 | two records share a signature if and only if level, name, function and line agree, or without a record the first 200 characters |
| LogSink.ReportsAreReadable | app/core/logging.py:129-139 | the text of a report determines the count and the sample |
| LogSink.FullSendsAreApart | app/core/logging.py:129-152 | any two full sends of one signature are at least 600 s apart |
| LogSink.TelegramSink.FlushExpired | app/core/logging.py:129-139 | exactly the signatures whose window closed are forgotten, and their tallies are reported, nothing lost |
| LogSink.TelegramSink.Sink | app/core/logging.py:141-152 | each record is sent or counted; seen = sent + reported + pending for every signature; everything goes out in the chunks of the split, after what went out before |
| Reminders.MarkerTellsTheTruth | app/repositories/subscriptions.py:109-125 | while the first one-day notice of a cycle is final, the marker records exactly what went out |
| Reminders.EachStageOnceAndInOrder | app/services/notification_service.py:24-26 | each stage at most once in a cycle, three days before one day, if the first one-day notice came when three days were no longer ahead |
| Reminders.UndisturbedCycleIsInOrder | app/services/notification_service.py:45-74 | in particular if nothing cleared the row between a listing and its claim |
| Reminders.StageWindows | app/repositories/subscriptions.py:62-73 | a stage lists exactly the active rows that run out within a day, or on the third day |
| Reminders.ShortTrialsExactly | app/services/notification_service.py:54-66 | too short are exactly the trials of less than two, or four, days |
| Reminders.NoticeIsSafeExactly | app/services/notification_service.py:69-74 | after a one-day notice every future of the cycle is in order if and only if the row at the claim would no longer be found three days out |
| Reminders.StaleClaimTellsTwice | app/services/notification_service.py:49-74 | for every row listed a day before its end, not yet told so (nor too short a trial), and renewed by two days or more before its turn: the one-day notice goes out twice in the new cycle, around the three-day one |
| Reminders.StaleClaimSilencesTheRealOne | app/services/notification_service.py:49-74 | for every row listed three days before its end, not yet told so (nor too short a trial), and renewed before its turn: the real three-day notice is not sent |
| Timing.StageInTimeExactly | app/services/notification_service.py:45-74 | for either stage of a covered cycle: the notice goes out in its window and no other of its stage does, if and only if every claim of the stage found the row still in the window |
| Timing.ThreeDaysInTimeExactly | app/repositories/subscriptions.py:109-125 | the three-day notice of a covered cycle goes out in its window if and only if no three-day claim found the row outside it: an early one silences it |
| Timing.PromiseHoldsExactly | app/services/notification_service.py:24-26 | when both windows are covered: each notice exactly once, in its own window and in order, if and only if every claim of either stage found the row in the window |
| Timing.EachStageOnceExactly | app/services/notification_service.py:49-74 | when both windows are covered, notices counted wherever they fall: exactly one of each stage if and only if every one-day claim found the row in its window |
| Timing.EveryStageIsToldOnce | app/services/notification_service.py:45-74 | passes at most a day apart find the row: a trial too short is never told, any other row is told, once while the first one-day notice is final, and once and in the window if and only if every claim of the stage found the row there |
| Timing.ShortTrialIsNeverTold | app/services/notification_service.py:54-68 | a trial too short for a stage is never told it, however stale the copy |
| Timing.ClearTellsAgain | app/services/reconcile_service.py:142-146 | for every row and stage that is told: writing the date over itself has the notice sent again in its window, for the same date |
| Timing.DateIsToldAgainExactly | app/services/subscription_service.py:162-179 | while a date stands, a stage told in time is told again by a later turn in the window if and only if the marker was cleared before that pass had loaded the row |
| Timing.NoDateIsToldTwice | app/services/notification_service.py:67-74 | two notices of a stage in the window of one date have a clear of the marker between them |
| RowHistories.EveryStepIsAnEvent | app/repositories/subscriptions.py:109-125 | whatever step the protocol takes, the commit of a reminder's claim sets a marker that was not set and nothing else, and every other commit keeps the marker with its date or clears it |
| RowHistories.RunIsAHistory | app/services/notification_service.py:39-84 | in every run in which one worker makes the passes over a user one after the other, deaths and all other writers included: what happened to the row is a well-formed history that ends in the committed row, and its notices are exactly the claims committed in the run |
| RowHistories.FirstTermIsToldOnce | app/services/notification_service.py:24-26 | in such a run a term whose date and marker nobody else moved has at most one claim of each stage |
| Notifications.NotificationService.MarkNotified | app/repositories/subscriptions.py:109-125 | claimed exactly if the marker differs; date and status are not looked at |
| Notifications.NotificationService.RemindOne | app/services/notification_service.py:52-82 | one turn: decided by the copy, claimed and committed before the send; a claimed turn makes one attempt, or two under flood control, counted and remembered as the replies say, any other turn none; recorded as exactly one event of the row's history |
| Notifications.NotificationService.SendExpiryReminders | app/services/notification_service.py:39-84 | with any commits of others between the turns: per stage whoever was expiring at the listing gets one turn and nobody else; one message to each user told, the counts and the newly unreachable as the messenger answered; every history stays one the laws hold for |
| RateLimit.RedisRateLimiter.Allow | app/services/rate_limit.py:23-37 | the stored counter, the verdict and the other keys after one hit |
| RateLimit.EveryCounterExpires | app/services/rate_limit.py:26-30 | after every hit the counter has a deadline within a window, even one inherited without |
| RateLimit.WindowAdmitsAtMostLimit | app/services/rate_limit.py:23-37 | no window lets in more than the limit |
| RateLimit.AnyIntervalAdmitsLessThanTwice | app/services/rate_limit.py:23-37 | any half-open interval as long as a window lets in at most 2 * limit - 1 |
| RateLimit.AdmittedExactly | app/services/rate_limit.py:23-37 | a hit is let in if and only if it is among the first `limit` of its window, windows defined by the moments of the hits alone |
| RateLimit.NoWindowNoMemory | app/services/rate_limit.py:23-37 | without a window that lasts, every hit is the first |
| RateLimit.HammeringIsReadmitted | app/services/rate_limit.py:26-30 | under constant hammering the first hit after a window's end, at most a window away, is let in |
| RateLimit.Cooldown.TryClaim | app/services/rate_limit.py:59-65 | the press is recorded and granted by the rule of GrantedExactly |
| RateLimit.Cooldown.GiveBack | app/services/rate_limit.py:67-69 | a turn given back is recorded as such and the next claim goes through |
| RateLimit.GrantedExactly | app/services/rate_limit.py:59-65 | a press gets a turn if and only if every turn granted and not given back since is at least a period old |
| RateLimit.TurnsAreApart | app/services/rate_limit.py:47-69 | two granted turns with none given back between them are a whole period apart |

## Left out

- The Telegram interface, the provider clients, prices, statistics, settings and migrations: not part of the protocol, or easy members only.
- Solo.FinalizeAlone: a clock that moves while the program runs; there one moment is read throughout, as each job may read it anew.
- Deadlock freedom: finalising may hold the payment row before the user's lock while another worker takes them the other way round; the victim is a worker that dies.
- Liveness.MoneyIsNeverTrapped: that every schedule delivers. It says that a way to delivery exists from everywhere; Sweeps.FinishProvisioning says that the watcher's own run is one when nobody races it and the panel is up.
- Panel state inside the step machine: there a panel call only succeeds, with some token, or fails. What an account looks like is stated for calls that nobody races, as the code itself only narrows that window.
- "Revoked stays revoked" against a provisioning that is already under way: the code does not decide it.
- An enabled account after provision when the existing account already agreed with the row: no state is written then.
- Which row a sweep of the step machine visits: it may try any payment or subscription, because the conditional update decides. The listings are exact in the imperative layer.
- ORM object identity in the imperative layer: rows are values in maps that the methods reassign, and a job there is not raced, so a locking read is a plain read and BUSY cannot occur. Stale cached copies are the step machine's subject.
- Payments.PaymentService.CheckAndFinalize: the outcome BUSY, because this job is not raced; being raced is the step machine's subject.
- Sweeps.PollPending: a death inside the job, which is a death in the step machine; each payment is asked about once here.
- Sweeps.SweepLatePayments: a provider that is not configured, which the source passes over like one that says nothing.
- Payments.PaymentService.CreateInvoice: both timestamps of a new invoice are one clock reading, and the provider's link and id are not stored.
- Reconcile.ReconcileService.Run: the listing and the visits are one undisturbed run; a panel that changes under the listing is not part of this model.
- The panel client's delays, its request budget and the warning about a device limit the panel did not take: the panel echoes what it stores.
- Broadcasts.BroadcastService.Run: users who register, block or unblock meanwhile; the audience changes only by what the run itself finds out. Drafting a broadcast is an insert.
- Announcing a delivery, the heartbeat table and user deletion.
- RowHistories.RunIsAHistory: overlapping passes over one user, because the scheduler runs one instance of the job at a time (app/scheduler/jobs.py:199). What two of them would do to the marker is in RowHistories.EveryStepIsAnEvent.
- Notifications.NotificationService.SendExpiryReminders: overlapping passes, because the scheduler runs one instance of the job at a time (app/scheduler/jobs.py:199), and a process that dies inside a pass, which RowHistories.RunIsAHistory allows.
- The order in which a query without ORDER BY lists its rows, and in which the log sink walks its dictionary: any order.
- Tariffs are constants with a duration that is not negative; grants add days that are not negative.
