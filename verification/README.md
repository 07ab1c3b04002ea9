# Tickets, wallets and scans of the smart bus back end

A Dafny model of the part of the back end in which money and tickets move: ticket purchase, the wallet
ledger and its payment callbacks, online validation, reconciliation of offline scans, and the job that
expires and refunds tickets. Three neighbouring state machines with theorems about whole runs are
modelled as well: refresh-token rotation, the progressive login lockout, and driver trips; so are the
idempotency layer in front of purchases, the passenger list of a trip, and the route transformation.

`dafny verify dfyconfig.toml` checks the project.

## How it is built

- `Store.Database` is the mutable store. Service methods (`Sync.Reconcile`, `ExpiryJob.HandleTicketExpiry`,
  `Wallet.ProcessWebhook`, `Tickets.Purchase`, ...) keep the loops, branches and rollbacks of the code and
  are proved to compute a function from one state of the tables to the next. The theorems are about those
  functions, over all runs (`Runs.Run`), all interleavings (`SingleWinner.Run`) or all deliveries
  (`Sync.DeliverAll`).
- There are two granularities. In `Runs` one service call, or one transaction of the expiry job, is one step;
  a refund of the job addresses its ticket by id, whatever became of it since the job's query, and a scan, online
  or offline, may be cut off between its ticket write and its event write. In `SingleWinner` and `Overlaps`
  single reads, conditional updates, writes by id and log inserts of any number of scans and jobs interleave.
  `Refreshes` does the same for token refreshes. `Refinement` and `Refreshes.RefreshRefines` prove that the pieces,
  with nothing in between, are the whole operations.
- Money is an integer amount, time an integer number of milliseconds, and "now" an input. Signature checks,
  payload decoding, trimming and hashing are arbitrary functions or given values. `Provider.parse` stands for
  decoding a callback body: its status is in lower case already, and an absent or empty reference is `None`; an
  empty signature is an absent one.
- History variables: `completed` lists ledger rows in the order in which they became COMPLETED; `login`,
  `born` and `issued` remember where refresh tokens come from. No decision reads them.
- Where the code asks for "any" row (the expiry batch, the trip of an offline scan, the top-up of a
  callback), methods report the row that was picked and the theorems hold for every choice.
- Automatic induction is switched off throughout; inductions are written out.

## Main results

0. **What each operation answers and writes** is told from the columns, with the literal words and numbers, beside the
   functions that compute it: `OfflineAnswers`, `OnlineAnswers`, `JobEffects`, `Callbacks`, `MoneyEffects`,
   `LockoutTable`, `TokenEffects`, `RetryWindow`, `TripEffects`, `RouteViews`.
1. **Offline sync has a closed form.** `Convergence.RunConverges` gives the ticket rows and balances after any
   deliveries, repeated, reordered and torn at will. From it:
   - order, repetition and crashes make no difference iff every contest between a boarding scan and an
     inspection is decided (`Contests.OrderFreeIff`, `Contests.DeliveryFreeIff`; for whole batches
     `AnyOrder.ResendFreeIff`);
   - batches that are cut off and sent again behave as if each had been delivered once, contests or not, when
     contesting batches are sent in order (`Resend.InOrderIsExactlyOnce`).
2. **The expiry job** reads the clock again at every query and every refund. From a query it can end iff fewer
   than 100 overdue tickets have no wallet to refund to (`JobClock.EndsIffFewFailing`); while that holds it goes
   through no more full batches than there are ACTIVE tickets (`JobClock.FullBatchesAreBounded`), and it does the
   one-shot refund as of its last query, whichever rows its queries return. In the running system no ticket
   ever fails and the job always ends (`Guarantees.JobEnds`).
3. **Money.** Under every interleaving balances plus unrefunded fares are the completed top-ups plus an excess that
   is computed exactly from the writes that came late; balances are folds of the ledger
   (`Overlaps.RunKeepsBooks`). Ledger rows and ticket rows fit all along iff no write came late
   (`Overlaps.FitsIffApt`).
4. **Late sync and expiry commute**, up to ledger pairs that cancel out.
5. **At most one online scan of a ticket answers VALID**, in every interleaving.
6. **The scan log agrees with the ticket table** along a crash-free run iff no refund of it met a used ticket.

## Where the code falls short of what it is for

The model follows the code. Each property below is false of it; a lemma gives a concrete case, and another
one says exactly when the property holds.

- **Late writes.** `src/jobs/ticket-expiry.job.ts:21-50` lists overdue tickets once and refunds them by id without
  another look at their status. An offline scan reads its ticket, decides, and writes by id
  (`src/modules/sync/sync.service.ts:108`, `265-296`), in no common transaction. A boarding scan that is
  synchronised before the refund is overwritten (`LateWrites.UsedTicketIsRefunded`); two overlapping runs of the
  job pay twice (`LateWrites.TicketIsRefundedTwice`); a refund between a scan's read and its write stays paid
  (`LateWrites.RefundSurvivesBoarding`); two overlapping attempts at one scan debit the fare twice
  (`LateWrites.RefundIsTakenBackTwice`). Exact conditions under every interleaving: `Overlaps.FitsIffApt`,
  `Overlaps.ConservedIffNoExcess`, `Overlaps.StaysNonNegativeIff`. Where no offline scan overlaps another step on
  its ticket: `Runs.FitsIffTimely`, `Runs.ConservedIffNoDoubleRefund`, `ScanLog.AgreesIffUsedSpared`,
  `ScanLog.UsedIsLeftIffRefunded`.
- **Order of offline scans.** An inspection and a boarding scan by one driver of one ticket at one instant hide
  one another in the log (`Contests.PairDivergesIff`). Exact conditions: `Contests.OrderFreeIff`,
  `Contests.DeliveryFreeIff`, `AnyOrder.ResendFreeIff`.
- **Never negative.** `prisma/schema.prisma:209` calls a balance "never negative". A reversed refund decrements
  it unchecked: `Overdraft.BalanceCanBeNegative` ends at -100. Exact conditions: `Overdraft.StaysNonNegativeIff` and,
  under every interleaving, `Overlaps.StaysNonNegativeIff`; the books bound the overdraft.
- **One live token.** A refresh checks its token outside the transaction that rotates it, so two overlapping ones
  leave two live tokens (`Refreshes.TwoLiveTokens`). Exact condition: `Refreshes.OneLiveEndIffNeverForks`.
- **Untrimmed identifiers.** The guard looks up the trimmed identifier and the login logs the one it was given
  (`Lockout.UntrimmedFailures`). Exact condition, for attempts that follow one another:
  `Lockout.LocksOutIffTrimmed`.
- **Retries.** A retried purchase gets the original response only while a live stored response exists; otherwise
  it changes nothing but is refused (`Idempotency.RetryChangesNothing`, `Idempotency.RetryCanBeRefused`).
- **Unbounded recursion.** Once 100 walletless tickets are overdue the expiry job never ends
  (`JobClock.EndsIffFewFailing`).
- The lockout table of the repository's README (lines 316-322) starts at 3 failures; the code starts at 1.

## Model

| member | source | states |
|---|---|---|
| `Sync.ProcessScan` | src/modules/sync/sync.service.ts:70-138 | the whole new state and report of one offline scan; bad signature, malformed payload and unknown ticket change nothing, and so does a scan that is logged already |
| `Sync.RecordScan` | src/modules/sync/sync.service.ts:140-319 | the other branches: too late, server wins, offline wins, inspection, refund reversal (an exception without a wallet), first use; each with its event, report and anomaly |
| `Sync.Reconcile` | src/modules/sync/sync.service.ts:48-66 | a batch is the sequence of its scans, each reported in the state it met; an exception leaves the scans before it processed and the rest untouched |
| `Sync.ReverseRefundOf` | src/modules/sync/sync.service.ts:262-290 | the reversal writes ticket, wallet and ADJUSTMENT row together or not at all |
| `Sync.FindLogged` | src/modules/sync/sync.service.ts:124-138 | finds a recorded result iff this ticket, driver and scan time was synchronised before |
| `Sync.CheckCrossDevice` | src/modules/sync/sync.service.ts:335-341 | reports a duplicate iff another driver has an event for the ticket |
| `OfflineAnswers.ForgedIsRejected` | src/modules/sync/sync.service.ts:78-88 | a scan whose signature does not verify writes nothing and is reported INVALID with INVALID_SIGNATURE |
| `OfflineAnswers.ForgedLeaveNoTrace` | src/modules/sync/sync.service.ts:52-88 | without its forged scans a batch has the same final state, and every genuine scan meets the same state, so gets the same report |
| `OfflineAnswers.UnknownIsRejected` | src/modules/sync/sync.service.ts:90-122 | so does a scan with an unreadable payload or of an unknown ticket |
| `OfflineAnswers.SynchronisedIsSkipped` | src/modules/sync/sync.service.ts:124-138 | a scan with an offline event of the same ticket, driver and time changes nothing and gets the recorded result |
| `OfflineAnswers.FreshIsAnswered` | src/modules/sync/sync.service.ts:145-319 | when each result and each action is reported, from scan time, expiry, recorded use and inspection flag |
| `OfflineAnswers.FreshAnomaly` | src/modules/sync/sync.service.ts:140-143 | when each anomaly is reported: second device, more than 24 hours late, different local result, in this order |
| `OfflineAnswers.FreshIsLogged` | src/modules/sync/sync.service.ts:298-309 | a fresh scan adds one event with exactly its columns and the result that it is answered |
| `OfflineAnswers.InspectionOnlyLogs` | src/modules/sync/sync.service.ts:203-259 | an inspection changes no ticket, no balance and no ledger row |
| `OfflineAnswers.BoardingUses` | src/modules/sync/sync.service.ts:171-297 | any other genuine, fresh scan in time leaves the ticket USED at its own time or an earlier recorded one, takes a refund back from the wallet, and touches no other ticket or wallet |
| `OfflineAnswers.LateScanOnlyLogs` | src/modules/sync/sync.service.ts:145-169 | a scan after expiry changes no ticket, no balance and no ledger row |
| `Refinement.DeliveryRefines` | src/modules/sync/sync.service.ts:70-319 | read, write and log of an offline scan with nothing in between are one delivery, without the log a torn one |
| `Convergence.RunConverges` | src/modules/sync/sync.service.ts:124-309 | closed form after any deliveries, torn and contested ones included: a ticket for which no boarding scan got through is untouched, any other is USED at the earliest such time or earlier recorded use; each balance falls by the refunds reversed, once each |
| `Contests.OnlyTheSetMatters` | src/modules/sync/sync.service.ts:124-309 | two delivery sequences with the same set of scans, all contests decided, end with equal ticket rows and balances |
| `Contests.PermutationsConverge` | src/modules/sync/sync.service.ts:52-55 | every permutation of a delivery sequence with all contests decided ends alike, torn deliveries included |
| `Contests.OrderFreeIff` | src/modules/sync/sync.service.ts:125-138 | all orders of given deliveries end with the same tickets iff each boarding scan in time is contested by no logged inspection or comes no earlier than a use that is certain; balances then agree too |
| `Contests.DeliveryFreeIff` | src/modules/sync/sync.service.ts:125-138 | all deliveries of given scans, repeated and torn at will, end with the same tickets iff the same holds with every inspection counted |
| `Contests.PairDivergesIff` | src/modules/sync/sync.service.ts:125-138 | a boarding and an inspection scan with equal ticket, driver and time end differently in their two orders iff the boarding scan is fresh and in time and the ticket not recorded as used by then |
| `AnyOrder.ResendFreeIff` | src/modules/sync/sync.service.ts:52-55 | for batches of one driver each, sent in any order, cut off anywhere and resent any number of times: the final tickets are always the same iff each boarding scan that may get through comes no earlier than a use that is certain |
| `AnyOrder.AtLeastOnceIsExactlyOnce` | src/modules/sync/sync.service.ts:203-223 | under that condition the tickets and balances are those of one clean delivery of each batch |
| `Resend.InOrderIsExactlyOnce` | src/modules/sync/sync.service.ts:52-55 | the same for all scans, contested or not, when a batch is sent only after the earlier batches that contest it |
| `Resend.OneBatchIsExactlyOnce` | src/modules/sync/sync.service.ts:52-55 | one batch, cut off anywhere and resent any number of times, ends as one clean delivery, whatever scans it holds |
| `Resend.AppliesIffLeads` | src/modules/sync/sync.service.ts:124-138 | a boarding scan gets through some attempt iff no inspection in its place precedes it in the batches |
| `Resend.ResendChangesNothing` | src/modules/sync/sync.service.ts:124-138 | resending complete deliveries is the identity on the whole state, provided the log only grew in between |
| `Resend.ResendReportsTheSame` | src/modules/sync/sync.service.ts:125-138 | a resent scan is reported as an idempotent skip with the result first reported |
| `Resend.DeliverKeepsOneEvent` | src/modules/sync/sync.service.ts:125-138 | at most one offline event exists per ticket, driver and scan time |
| `ScanLog.ResendIsIdle` | src/modules/sync/sync.service.ts:124-138 | in the running system: deliver, let any steps happen, deliver again - nothing changes |
| `Guarantees.SyncConvergesIff` | src/modules/sync/sync.service.ts:124-309 | both exact conditions for convergence, from every reachable state and with no other assumption |
| `Guarantees.AgreeingScansConverge` | src/modules/sync/sync.service.ts:124-309 | scans that agree on inspection mode converge from every reachable state |
| `Guarantees.ResendsDoNotShow` | src/modules/sync/sync.service.ts:52-55 | crashes and resends in order do not show, from every reachable state |
| `Guarantees.ResendFreeIff` | src/modules/sync/sync.service.ts:52-55 | the exact condition for batches in any order, from every reachable state |
| `Guarantees.EarliestBoardingWins` | src/modules/sync/sync.service.ts:171-309 | a ticket for which a fresh boarding scan in time got through ends USED at the least of those times and any earlier use, its refund gone; any other row is unchanged |
| `Guarantees.RefundsReversedOnce` | src/modules/sync/sync.service.ts:262-290 | each passenger is debited the fare exactly once for exactly those REFUNDED tickets for which a fresh boarding scan got through |
| `Guarantees.BatchIsRun` | src/modules/sync/sync.service.ts:52-55 | deliveries of a batch are steps of the running system |
| `ExpiryJob.HandleTicketExpiry` | src/jobs/ticket-expiry.job.ts:20-68 | the recursion ends under any moving clock at whose readings fewer than 100 tickets fail, by the number of ACTIVE tickets; a row differs afterwards iff it was ACTIVE, had expired before the last query and its passenger has a wallet; it is then REFUNDED, and each wallet has grown by those fares |
| `ExpiryJob.ExpireBatch` | src/jobs/ticket-expiry.job.ts:28-60 | a batch is the fold of its single transactions, each at its own time; the counter equals the number of tickets refunded |
| `JobEffects.JobSweeps` | src/jobs/ticket-expiry.job.ts:20-68 | the same for every run of the job that ends, whichever rows its queries returned |
| `JobEffects.EndsIffUnder100Walletless` | src/jobs/ticket-expiry.job.ts:20-67 | from a query the job can end iff fewer than 100 ACTIVE tickets overdue then have no wallet |
| `Refinement.BatchRefines` | src/jobs/ticket-expiry.job.ts:21-60 | a list that was read and refunded with nothing in between is one batch |
| `Expiry.RefundExpired` | src/jobs/ticket-expiry.job.ts:31-59 | one ticket's transaction: refunded and credited, or nothing changed when the credit fails |
| `Expiry.FindOverdue` | src/jobs/ticket-expiry.job.ts:21-24 | distinct ACTIVE tickets that expired before now, at most 100, all of them if fewer |
| `JobEffects.PickInColumns` | src/jobs/ticket-expiry.job.ts:21-24 | a list of rows may be the answer of the query iff it holds distinct ACTIVE tickets that expired before now, at most 100 of them, and all of them if fewer |
| `Expiry.ExpireAllShot` | src/jobs/ticket-expiry.job.ts:30-60 | processing ids in any proper order refunds exactly the processed refundable tickets, each once, and raises each balance by the sum of its fares |
| `Expiry.CompleteOrderIsOneShot` | src/jobs/ticket-expiry.job.ts:30-67 | every complete processing order, however batched, reaches the one-shot state |
| `JobClock.ActiveShrinks` | src/jobs/ticket-expiry.job.ts:64-67 | while fewer than 100 tickets fail, a full batch leaves strictly fewer ACTIVE tickets, whatever becomes overdue meanwhile |
| `JobClock.FullBatchesAreBounded` | src/jobs/ticket-expiry.job.ts:64-67 | however the clock moves, there are no more full batches than ACTIVE tickets |
| `JobClock.EndedFails` | src/jobs/ticket-expiry.job.ts:21-67 | a run of the job that ends met fewer than 100 failing tickets at its first query, so 100 of them make it run for ever |
| `Expiry.StuckIffManyFailing` | src/jobs/ticket-expiry.job.ts:21-67 | some full batch can leave the state unchanged, so that the job calls itself on it, iff at least 100 overdue tickets have no wallet |
| `JobClock.EndsIffFewFailing` | src/jobs/ticket-expiry.job.ts:20-67 | from a query at a given time the job can come to an end iff fewer than 100 tickets overdue at that time have no wallet |
| `JobClock.ClockedIsOneShot` | src/jobs/ticket-expiry.job.ts:20-68 | whatever batches the job goes through before it ends, it reaches, refund times apart, the one-shot refund as of its last query |
| `JobClock.ClockedStamps` | src/jobs/ticket-expiry.job.ts:46-49 | and every refund time it writes lies no earlier than its first query |
| `Guarantees.ReachableIsProper` | src/jobs/ticket-expiry.job.ts:38-44 | in reachable states no overdue ticket lacks a wallet and ACTIVE tickets have no refund time |
| `Guarantees.JobEnds` | src/jobs/ticket-expiry.job.ts:20-68 | in reachable states, with no other assumption, the full batches are bounded by the ACTIVE tickets and no reading of the clock finds a failing ticket |
| `Guarantees.ClockedJobRefundsAllOverdue` | src/jobs/ticket-expiry.job.ts:20-68 | in reachable states everything overdue at the job's last query is refunded, with exactly one REFUND row each, and each wallet grows by the sum of its fares |
| `Guarantees.JobIsRun` | src/jobs/ticket-expiry.job.ts:30-60 | the job's transactions are steps of the running system |
| `Guarantees.JobIsTimely` | src/jobs/ticket-expiry.job.ts:30-60 | none of them is late when nothing else happens in between |
| `Confluence.LateSyncAndExpiryCommute` | src/jobs/ticket-expiry.job.ts:32-50 | job then batch and batch then job give equal tickets, balances and events, and ledgers that differ by a REFUND/ADJUSTMENT pair per ticket at most |
| `Guarantees.SyncAndExpiryCommute` | src/modules/sync/sync.service.ts:261-297 | the same from every reachable state and for every choice of rows by the job |
| `Wallet.Debit` | src/modules/wallet/wallet.service.ts:151-179 | missing wallet and insufficient balance change nothing; a duplicate key fails after the balance was written; otherwise balance and COMPLETED row with its running balance |
| `Wallet.Credit` | src/modules/wallet/wallet.service.ts:181-205 | missing wallet fails; otherwise balance and COMPLETED REFUND row |
| `Wallet.InitiateTopup` | src/modules/wallet/wallet.service.ts:49-109 | used key, amount out of range, missing wallet fail in that order; otherwise a PENDING row and no balance change |
| `Wallet.ProcessWebhook` | src/modules/wallet/wallet.service.ts:207-260 | forged and malformed callbacks change nothing; a known reference settles a matching row, as paid iff the status is "success" or "completed"; an unknown one changes nothing |
| `Callbacks.MessagesDecideStatus` | src/modules/wallet/wallet.service.ts:207-260 | for any sequence of messages, a top-up with a unique reference ends COMPLETED iff it was or some authentic message about it says "success" or "completed", else FAILED iff any authentic message about it arrived |
| `Callbacks.MessagesCreditOnce` | src/modules/wallet/wallet.service.ts:235-250 | its wallet is credited with its amount once iff some such message does, and no other wallet changes |
| `Callbacks.OthersChangeNothing` | src/modules/wallet/wallet.service.ts:208-233 | forged messages and those about no stored top-up change nothing |
| `Callbacks.EachReply` | src/modules/wallet/wallet.service.ts:208-237 | which error each message is answered with |
| `Webhooks.CreditedOnce` | src/modules/wallet/wallet.service.ts:233-259 | callbacks for one top-up: COMPLETED and credited exactly once iff one reports success, else FAILED (or as before without callbacks) and credited nothing |
| `Webhooks.CreditedOnceInRun` | src/modules/wallet/wallet.service.ts:233-259 | the same in any run of the system, with any steps in between: final status, and completed once at most |
| `Webhooks.CallbacksDecideStatus` | src/modules/wallet/wallet.service.ts:233-259 | the final status of every top-up under any mixture of callbacks about any of them |
| `Webhooks.OneRowPerReference` | src/modules/wallet/wallet.service.ts:227-232 | callbacks with a unique reference keep being matched to the same row |
| `Webhooks.CompletedNeverLeft` | src/modules/wallet/wallet.service.ts:233 | no step of the system changes a COMPLETED ledger row |
| `Tickets.Purchase` | src/modules/tickets/tickets.service.ts:60-100 | debit and 60-minute ACTIVE ticket together, or every table as it was |
| `MoneyEffects.PurchaseEffect` | src/modules/tickets/tickets.service.ts:60-81 | a purchase goes through iff there is a wallet that holds the fare, the key is free and the id new; the exact ticket, balance and ledger row that it writes |
| `MoneyEffects.PurchaseRefusal` | src/modules/wallet/wallet.service.ts:158-163 | which error it is refused with |
| `MoneyEffects.TopupEffect` | src/modules/wallet/wallet.service.ts:57-98 | a top-up is accepted iff the key is free, the amount from 10 to 10000 and there is a wallet; the exact PENDING row |
| `MoneyEffects.RefundEffect` | src/jobs/ticket-expiry.job.ts:33-49 | the exact ticket, balance and ledger row of a refund |
| `MoneyEffects.TicketsLastAnHour` | src/modules/tickets/tickets.service.ts:61-62 | in every run each ticket expires 3600000 ms after it was bought |
| `MoneyEffects.BoughtTicketStays` | src/modules/tickets/tickets.service.ts:67-81 | after its purchase a ticket keeps passenger, fare, purchase time and expiry whatever happens |
| `MoneyEffects.StepsTakeEffect` | src/modules/tickets/tickets.service.ts:64-100 | every step of a run is the operation that it names |
| `Overlaps.RunKeepsBooks` | src/modules/wallet/wallet.service.ts:151-260 | under every interleaving: balances plus unrefunded fares equal completed top-ups plus the excess (refunds of refunded tickets, uses written over refunds, less reversals repeated); each balance is the signed fold of its entries in completion order and each balanceAfter a prefix of it; overdraft at most the reversals |
| `Overlaps.FitsIffApt` | src/modules/sync/sync.service.ts:261-297 | ticket rows and ledger rows fit all along an interleaving iff every write by id meets its ticket in a status for which it would be decided on |
| `Overlaps.StepFitsIffApt` | src/modules/sync/sync.service.ts:261-297 | the same for a single step |
| `Overlaps.ConservedIffNoExcess` | src/modules/sync/sync.service.ts:261-297 | money is conserved at the end of an interleaving iff its excess is zero |
| `Overlaps.AptConserves` | src/modules/sync/sync.service.ts:261-297 | interleavings without late writes create and destroy no money |
| `Overlaps.StaysNonNegativeIff` | src/modules/sync/sync.service.ts:271-275 | under every interleaving balances stay non-negative in a step iff it does not take back a refund that the passenger no longer has |
| `Runs.RunKeepsBooks` | src/modules/wallet/wallet.service.ts:151-260 | the books with each offline scan as one step; ticket rows and ledger rows fit if all refunds were timely |
| `Runs.ConservedIffNoDoubleRefund` | src/jobs/ticket-expiry.job.ts:32-50 | with each offline scan as one step, money is conserved at the end of a run iff no refund of it met a ticket that was refunded already |
| `Runs.FitsIffTimely` | src/jobs/ticket-expiry.job.ts:21-50 | with each offline scan as one step, ticket rows and ledger rows fit all along a run iff every refund of it met its ticket ACTIVE |
| `Steps.RefundFitsIffActive` | src/jobs/ticket-expiry.job.ts:32-50 | a refund by id keeps that fit iff the ticket is ACTIVE |
| `Steps.WriteFitsIffApt` | src/modules/sync/sync.service.ts:261-297 | the ticket write of an offline scan keeps it iff the row still calls for that write |
| `Steps.WriteBalanced` | src/modules/sync/sync.service.ts:261-297 | how much money any such write creates or destroys, on a row in any status |
| `Steps.RefundConservesIff` | src/jobs/ticket-expiry.job.ts:32-50 | a refund by id conserves money iff the ticket is not refunded yet |
| `LateWrites.UsedTicketIsRefunded` | src/jobs/ticket-expiry.job.ts:21-50 | an interleaving of the job with a boarding scan that turns a USED ticket into a REFUNDED one and pays the fare back |
| `LateWrites.TicketIsRefundedTwice` | src/jobs/ticket-expiry.job.ts:21-50 | an interleaving of two runs of the job that pays 200 back for a ticket of 100 |
| `LateWrites.RefundSurvivesBoarding` | src/modules/sync/sync.service.ts:292-297 | an interleaving in which the one refund is timely, and the boarding scan read before it leaves the ticket USED with the refund paid |
| `LateWrites.RefundIsTakenBackTwice` | src/modules/sync/sync.service.ts:262-290 | an interleaving of two attempts at one scan that debits the fare twice and ends at -100 |
| `Books.PostingKeepsBalanced` | src/modules/wallet/wallet.service.ts:161-178 | a posting that moves money between a wallet and a ticket keeps all of the books, up to what it pays out beyond that |
| `Books.SettlingKeepsBalanced` | src/modules/wallet/wallet.service.ts:235-259 | so does a payment callback |
| `Books.FoldedStep` | src/modules/wallet/wallet.service.ts:237-249 | completing a row extends the fold of its owner and leaves all earlier recorded balances prefixes |
| `Runs.LedgerDeterminesStatus` | src/modules/tickets/tickets.service.ts:64-81 | in runs with timely refunds a ticket's rows are PURCHASE, PURCHASE-REFUND or PURCHASE-REFUND-ADJUSTMENT as its status demands; EXPIRED is never visible; no ticket, no rows |
| `Runs.NeverNegativeWithoutReversals` | src/modules/wallet/wallet.service.ts:161-166 | no wallet is negative in a run without a refund reversal |
| `Runs.StepTicketed` | src/jobs/ticket-expiry.job.ts:32-50 | every step keeps the books, and ticket rows fitting their ledger rows unless it is a late refund |
| `Overdraft.StaysNonNegativeIff` | src/modules/sync/sync.service.ts:271-275 | with each offline scan as one step, balances stay non-negative in a step iff it is not a fresh boarding scan of a refunded ticket whose passenger lacks the fare |
| `Overdraft.BalanceCanBeNegative` | prisma/schema.prisma:209 | a concrete run that ends with a balance of -100 |
| `Validation.ValidateTicket` | src/modules/validation/validation.service.ts:48-214 | state and answer for all branches, with the event logged in each |
| `Validation.MarkUsedIfActive` | src/modules/validation/validation.service.ts:151-154 | the conditional update applies iff the row is ACTIVE |
| `Validation.LogScan` | src/modules/validation/validation.service.ts:371-395 | one event for a known ticket, none without a ticket id, a foreign-key error for the id of no ticket |
| `OnlineAnswers.BoardingSucceedsIff` | src/modules/validation/validation.service.ts:48-187 | a boarding request succeeds, as VALID, iff the signature verifies, the payload names a stored ticket, the driver has a trip, and the ticket is ACTIVE and not expired |
| `OnlineAnswers.InspectionSucceedsIff` | src/modules/validation/validation.service.ts:147-148 | an inspection succeeds, as INSPECTION_ONLY, under the same conditions but the status |
| `OnlineAnswers.EachRefusal` | src/modules/validation/validation.service.ts:52-173 | when each error is answered |
| `OnlineAnswers.PresentedIsLogged` | src/modules/validation/validation.service.ts:105-187 | the result that is logged: EXPIRED, INSPECTION_ONLY, VALID or ALREADY_USED |
| `OnlineAnswers.OthersAreLogged` | src/modules/validation/validation.service.ts:52-98 | what is logged of a request that is refused before |
| `OnlineAnswers.OnlyValidWrites` | src/modules/validation/validation.service.ts:150-177 | the ticket is written iff the answer is VALID |
| `Refinement.ScanRefines` | src/modules/validation/validation.service.ts:73-187 | entry, read, check, conditional update and log with nothing in between are one validation |
| `ScanLog.AgreesIffUsedSpared` | src/modules/validation/validation.service.ts:105-187 | along a crash-free run the log agrees with the tickets iff no refund meets a used one |
| `ScanLog.RunAgrees` | src/modules/validation/validation.service.ts:105-187 | agreement in full: USED iff a VALID event exists; VALID scan times strictly decrease in log order; the last one is usedAt |
| `ScanLog.StepAgreesIff` | src/modules/sync/sync.service.ts:145-309 | a step that is not cut off keeps the agreement iff it does not refund a used ticket |
| `ScanLog.NeverUsedAfterExpiry` | src/modules/analytics/analytics.service.ts:391-409 | the used-after-expiry query is empty in every reachable state, with crashes between ticket write and log insert of online and offline scans and with late refunds |
| `ScanLog.UsedIsLeftIffRefunded` | src/modules/sync/sync.service.ts:171-209 | in a step a USED ticket stays USED, with only its usedAt moving to an earlier time, iff the step is not the job's refund of that ticket |
| `SingleWinner.AtMostOneValid` | src/modules/validation/validation.service.ts:150-187 | over all interleavings with purchases, offline scans and stale expiry lists at most one online scan of a ticket answers VALID, and then exactly one VALID online event is logged |
| `SingleWinner.LaterClaimsLose` | src/modules/validation/validation.service.ts:151-173 | once a scan has won, every further claim applies to no row |
| `SingleWinner.NeverActiveAgain` | src/jobs/ticket-expiry.job.ts:32-50 | no step writes ACTIVE to an existing ticket |
| `SingleWinner.RunSafe` | src/modules/validation/validation.service.ts:73-187 | the invariant of every interleaving: winners' tickets are spent, winners are unique, the log counts them |
| `SeenPassengers.MarkSeen` | src/modules/validation/validation.service.ts:347-354 | the one-pass map equals the quadratic definition: an earlier scan has the same passenger |
| `SeenPassengers.UnmarkedCountPassengers` | src/modules/validation/validation.service.ts:340-354 | the number of unmarked scans is the number of distinct passengers |
| `Idempotency.RunConsistent` | prisma/schema.prisma:231 | at most one wallet row per key; tickets and PURCHASE rows correspond one to one; stored responses name the ticket that their key paid for |
| `Idempotency.RetryChangesNothing` | src/common/guards/idempotency.guard.ts:30-40 | a retry at any later point changes nothing, whether the stored response is live, expired, never stored or deleted; it is answered with the original ticket iff a live one exists |
| `Idempotency.RetryCanBeRefused` | src/common/interceptors/idempotency.interceptor.ts:54-69 | a run in which a retry that could pay is refused, because the first response was not stored yet |
| `RetryWindow.RetryWithinADay` | src/common/guards/idempotency.guard.ts:30-36 | less than 24 hours after a purchase whose response was stored, a retry is answered with its ticket |
| `RetryWindow.RetryAfterADay` | src/common/guards/idempotency.guard.ts:30-40 | after 24 hours it is refused, stored or not |
| `RetryWindow.FirstIsAnswered` | src/common/interceptors/idempotency.interceptor.ts:34-70 | a first purchase under a key is answered with its own ticket |
| `RetryWindow.CleanupEffect` | src/jobs/cleanup.job.ts:17-22 | cleanup deletes exactly the expired rows |
| `RetryWindow.PersistEffect` | src/common/interceptors/idempotency.interceptor.ts:54-69 | storing a response touches its key only and replaces no row |
| `Idempotency.Endpoint.Handle` | src/common/guards/idempotency.guard.ts:17-42 | missing and malformed keys are rejected with nothing changed; otherwise guard, purchase and hand-over to the background store |
| `Idempotency.Endpoint.StoreResponse` | src/common/interceptors/idempotency.interceptor.ts:54-69 | the background insert keeps an older row with the same key |
| `Idempotency.Endpoint.CleanupIdempotencyKeys` | src/jobs/cleanup.job.ts:17-22 | deletes exactly the expired rows |
| `Lockout.WindowSuffices` | src/modules/auth/guards/auth-rate-limit.guard.ts:31-55 | the lockout computed from the newest 20 events equals the one from the whole history |
| `Lockout.FailuresTakeTime` | src/modules/auth/guards/auth-rate-limit.guard.ts:43-55 | n >= 5 consecutive failures on a trimmed identifier span at least 1235 + 3600 (n - 5) seconds, in every run in which the attempts on it follow one another |
| `Lockout.LocksOutIffTrimmed` | src/modules/auth/guards/auth-rate-limit.guard.ts:27-41 | that bound holds in all such runs iff the identifier is not empty and has no surrounding blanks |
| `Lockout.UntrimmedFailures` | src/modules/auth/auth.service.ts:122-144 | any number of failures at one instant is admitted on an identifier that trimming changes, and none of them is logged under the trimmed one |
| `Lockout.RunSpaced` | src/modules/auth/auth.service.ts:122-153 | when the attempts on a trimmed identifier follow one another, each of its admitted login events comes after the lockout that was due |
| `Lockout.RemainingIsExact` | src/modules/auth/guards/auth-rate-limit.guard.ts:43-57 | the guard refuses iff the lockout for the trailing failures is still on, and reports the seconds left, rounded up |
| `LockoutTable.RefusalTable` | src/modules/auth/guards/auth-rate-limit.guard.ts:12-57 | after 0, 1, 2, 3, 4 and 5 or more failures in a row the newest 20 events refuse for 0, 5, 30, 300, 900 and 3600 seconds |
| `LockoutTable.WaitIsRoundedUp` | src/modules/auth/guards/auth-rate-limit.guard.ts:52-57 | the reported wait is the time left in whole seconds, rounded up |
| `LockoutTable.WhatCounts` | src/modules/auth/guards/auth-rate-limit.guard.ts:31-41 | other identifiers and other kinds of events do not count, and a success wipes the failures out |
| `LockoutTable.EmptyPasses` | src/modules/auth/guards/auth-rate-limit.guard.ts:27-29 | an empty identifier is not guarded |
| `LockoutTable.AttemptLogs` | src/modules/auth/auth.service.ts:122-151 | which event each attempt logs, under which identifier |
| `LockoutTable.FewFailuresTakeTime` | src/modules/auth/guards/auth-rate-limit.guard.ts:43-55 | 2, 3 and 4 failures in a row span at least 5, 35 and 335 seconds |
| `LockoutTable.BoundsAreAttained` | src/modules/auth/guards/auth-rate-limit.guard.ts:43-55 | for every n some run has n failures in a row in exactly the least time |
| `Lockout.AuthLog.CanActivate` | src/modules/auth/guards/auth-rate-limit.guard.ts:24-73 | passes, or logs a LOCKOUT event and reports the wait |
| `Lockout.AuthLog.FindNewest` | src/modules/auth/guards/auth-rate-limit.guard.ts:31-41 | the newest 20 login events of the identifier, newest first |
| `Lockout.AuthLog.CountConsecutiveFailures` | src/modules/auth/guards/auth-rate-limit.guard.ts:75-86 | the failures before the first success |
| `Refreshes.RunChained` | src/modules/auth/auth.service.ts:156-222 | under every interleaving replacement is injective and goes to a younger token of the same login and user |
| `Refreshes.OneLiveEndIffNeverForks` | src/modules/auth/auth.service.ts:160-201 | all along an interleaving each login has at most one unrevoked token, its youngest, iff no rotation finds another token of its login alive |
| `Refreshes.RotatingKeepsOneIffAlone` | src/modules/auth/auth.service.ts:185-202 | the same for a single rotation, of a token in any state |
| `Refreshes.TwoLiveTokens` | src/modules/auth/auth.service.ts:160-201 | two overlapping refreshes of one token leave two live tokens |
| `Tokens.RunLinear` | src/modules/auth/auth.service.ts:156-222 | with each refresh as one step: chains, and one unrevoked token a login at most |
| `Tokens.Acyclic` | src/modules/auth/auth.service.ts:185-202 | no chain of replacements returns to its start |
| `Tokens.OnlyEndsAreLive` | src/modules/auth/auth.service.ts:185-202 | a token that was rotated is revoked, and a live end of a chain is the login's only live token |
| `Tokens.ReplayRevokesUser` | src/modules/auth/auth.service.ts:169-175 | presenting a rotated stored token leaves its user without an unrevoked token |
| `Tokens.RefreshMovesTheEnd` | src/modules/auth/auth.service.ts:177-205 | after a successful refresh the new token is exactly the live one of its login |
| `TokenEffects.RefreshAnswer` | src/modules/auth/auth.service.ts:165-183 | when a presented token is unknown, replayed, expired or accepted |
| `TokenEffects.RefreshEffect` | src/modules/auth/auth.service.ts:185-205 | an accepted refresh touches exactly two rows; the new token lives for seven days |
| `TokenEffects.FailedRefreshEffect` | src/modules/auth/auth.service.ts:165-179 | a replay revokes exactly the user's unrevoked tokens, any other failure writes nothing |
| `TokenEffects.LogoutEffect` | src/modules/auth/auth.service.ts:232-235 | logging out touches exactly the presented token |
| `TokenEffects.ResetEffect` | src/modules/auth/auth.service.ts:267-270 | a reset revokes exactly the user's unrevoked tokens |
| `TokenEffects.LoginEffect` | src/modules/auth/auth.service.ts:348-358 | a login adds one unrevoked token that lives for seven days |
| `TokenEffects.CleanupEffect` | src/jobs/cleanup.job.ts:48-54 | cleanup deletes exactly the tokens that expired over seven days ago |
| `TokenEffects.LiveTokenStays` | src/modules/auth/auth.service.ts:156-235 | an unrevoked token is untouched by whatever does not concern it |
| `Refreshes.RefreshRefines` | src/modules/auth/auth.service.ts:160-205 | a check and a rotation with nothing in between are a whole refresh |
| `Tokens.RunHashesUnique` | src/modules/auth/auth.service.ts:160-163 | a presented hash names at most one stored token in every reachable state |
| `Tokens.TokenStore.RefreshToken` | src/modules/auth/auth.service.ts:156-205 | unknown, replayed, expired and valid tokens; the rotation is one transaction, rolled back on a hash clash |
| `Tokens.TokenStore.IssueTokens` | src/modules/auth/auth.service.ts:348-358 | one new unrevoked token |
| `Tokens.TokenStore.LogoutToken` | src/modules/auth/auth.service.ts:224-235 | revokes the presented token if it is stored and unrevoked |
| `Tokens.TokenStore.ResetPassword` | src/modules/auth/auth.service.ts:267-270 | revokes all unrevoked tokens of the user and no other |
| `Tokens.TokenStore.CleanupExpiredTokens` | src/jobs/cleanup.job.ts:48-54 | deletes exactly the tokens that expired over a week ago |
| `Trips.RunSequential` | src/modules/trips/trips.service.ts:89-186 | a driver's started trips follow one another; without ties under a strictly increasing clock |
| `Trips.LookupUnambiguous` | src/modules/sync/sync.service.ts:323-333 | under a strictly increasing clock the unordered trip lookup has one possible answer |
| `Trips.AmbiguousIffTie` | src/modules/sync/sync.service.ts:323-333 | under a clock that may stand still, two trips compete for a scan iff it was taken at the instant one ended and the other started |
| `Trips.OneActiveTrip` | src/modules/trips/trips.service.ts:102-108 | a driver never has two trips in progress |
| `TripEffects.StartEffect` | src/modules/trips/trips.service.ts:89-115 | a trip is started iff it is the driver's, SCHEDULED, and the driver has none in progress |
| `TripEffects.EndEffect` | src/modules/trips/trips.service.ts:117-143 | it is ended iff it is the driver's and in progress |
| `TripEffects.CancelEffect` | src/modules/trips/trips.service.ts:168-186 | it is cancelled iff it is SCHEDULED |
| `TripEffects.CancelledIsOver` | src/modules/trips/trips.service.ts:96-100 | a cancelled trip can be neither started, ended nor cancelled |
| `TripEffects.OverForGood` | src/modules/trips/trips.service.ts:96-134 | whatever happens, a cancelled or completed trip stays as it is |
| `TripEffects.LookupFindsCover` | src/modules/sync/sync.service.ts:323-333 | the lookup finds a trip of the driver that covers the scan time iff there is one |
| `TripEffects.ScanBelongsToTrip` | src/modules/sync/sync.service.ts:323-333 | a scan during a trip in progress belongs to that trip, in every run under a strictly increasing clock |
| `Trips.StartTrip` | src/modules/trips/trips.service.ts:89-115 | starts a SCHEDULED trip of a driver without one in progress; the errors otherwise |
| `Trips.EndTrip` | src/modules/trips/trips.service.ts:117-143 | ends a trip in progress; the errors otherwise |
| `Trips.CancelTrip` | src/modules/trips/trips.service.ts:168-186 | cancels a SCHEDULED trip; the errors otherwise |
| `Trips.GetActiveTrip` | src/modules/trips/trips.service.ts:188-193 | a trip in progress of the driver, if there is one |
| `Routes.ValidateStops` | src/modules/routes/routes.service.ts:449-460 | accepts exactly the lists of two or more stops whose numbers are a permutation of 1..n |
| `Routes.ValidateSegments` | src/modules/routes/routes.service.ts:439-447 | accepts exactly the lists of forward-consecutive segments |
| `Routes.TransformRoute` | src/modules/routes/routes.service.ts:342-385 | stops in order with their neighbouring legs, and the totals or the estimates as fallback |
| `Routes.TotalsAgree` | src/modules/routes/routes.service.ts:361-385 | to-next distances, from-previous distances and the route's distance have one total; durations likewise |
| `RouteViews.ShowsTheStops` | src/modules/routes/routes.service.ts:343-375 | the stops shown are the route's stops with their own ids and numbers, in order, 1 to n |
| `RouteViews.ShowsItsSegments` | src/modules/routes/routes.service.ts:351-373 | each stop shows the last segment to the next number and the last one from the number before, or nothing |
| `RouteViews.NeighboursAgree` | src/modules/routes/routes.service.ts:361-373 | neighbouring stops agree on the leg between them, and the ends show nothing beyond |
| `Routes.UniqueSegmentsAddUp` | src/modules/routes/routes.service.ts:351-385 | with unique segments the route's distance and duration are the sums over all adjacent segments |

## Left out

- HandleTicketExpiry: requires fewer than 100 failing tickets at every reading of the clock; at a query with 100 of them the job never ends (`EndsIffFewFailing`).
- FailuresTakeTime: covers trimmed identifiers (`LocksOutIffTrimmed` shows that this is exact) whose attempts follow one another; attempts in parallel all pass the guard before the first failure is logged.
- LedgerDeterminesStatus: covers runs with timely refunds and each offline scan as one step; under all interleavings `FitsIffApt` is exact.
- RunAgrees: covers crash-free runs that refund no used ticket, each scan as one step; `AgreesIffUsedSpared` shows that the refunds are the exact condition there.
- RefundsReversedOnce: takes deliveries one after the other; `RefundIsTakenBackTwice` shows what overlapping attempts at one scan do.
- RunLinear: takes refreshes one after the other; `OneLiveEndIffNeverForks` treats overlapping ones.
- AnyOrder.ResendFreeIff: speaks of batches of one driver each, as the endpoint receives them.
- TransformRoute: price, fare list and localised names of the response.
- Interleavings inside a wallet transaction: the money theorems take each as atomic, although balances are written as absolute values.
- Floating-point rounding of balances, fares and distances.
- QR signing, HMAC, hashing, Argon2, JWT and JSON decoding, beyond being arbitrary functions; signed payloads without a ticket id.
- Payment provider calls, SMS, push messages, anomaly scoring, logging, localisation, QR columns of ticket rows.
- The fare lookup of a purchase: the fare is a positive input.
- Top-up limits, token lifetime and response lifetime are the configured defaults (10 and 10000, 7 days, 24 hours).
- The idempotency guard in front of top-ups, the format check of keys, and several endpoints sharing one key table.
- Report counters of a batch, trip summaries, pagination, role checks, administration and profile operations.
- `markUsed` and `expireAndRefund` of the ticket service, which nothing calls; `cleanupStaleUsers` and one-time codes.
- Analytics other than the used-after-expiry query.
- Order among events with equal timestamps: log order stands for creation time.
