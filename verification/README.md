# Verification of the Nexus background worker

This project models the polling worker of the Nexus platform in Dafny and proves what its transactional
outbox, the handlers the outbox drives, the automation dispatcher and the JSON-LD escaper guarantee.
`dafny verify dfyconfig.toml` checks all of it.

## The system

Several worker processes poll one database. Each claims a batch of outbox rows under a lease, runs a handler
for every event, and settles each row with a compare-and-set on `(id, PROCESSING, lockOwner)`: PROCESSED, or
back to PENDING with an exponential delay, or FAILED after `maxRetries` failures. A worker can crash at any
await, and a slow one can lose its lease to another that runs the same handler again. Delivery is therefore at
least once, and every handler has to be idempotent or guarded.

The code is modelled at the grain at which the database sees it. Every single statement and every
`$transaction` is one atomic step; a read outside a transaction is a step of its own. Interleavings are runs
over such steps. Code that changes tables in place is a class whose methods are proved against a function or a
run of the protocol; the laws are proved about those. Ids, mailbox hashes and clock readings are numbers, and
time is in milliseconds.

| file | models |
|---|---|
| `Wrappers.dfy` | nullable columns; how a transaction ends |
| `OutboxRow.dfy` | one outbox row: its four statements, the history of those that took effect, retry and back-off laws |
| `OutboxProtocol.dfy` | any number of workers over the outbox as a state machine; fencing, counting, PROCESSED means done |
| `OutboxWorker.dfy` | `processOutboxEvents` as the loop it is, with other workers acting at every await |
| `OrderPaid.dfy`, `Outside.dfy` | the ORDER_PAID handler as the statements it sends; the other transactions on its tables |
| `OneEffect.dfy`, `Fulfilment.dfy` | protocol, handler and the other transactions in one machine: at-least-once delivery has one effect; a run in which everything is fulfilled |
| `Leases.dfy` | what a worker within its lease can rely on |
| `OneSale.dfy`, `Overlap.dfy` | exactly when the sale is posted once, a run in which it is posted twice, and orders that cannot be posted |
| `Capacity.dfy` | exactly when overlapping placements stay within a server's limit, and a run in which they do not |
| `Affiliate.dfy`, `AffiliateRuns.dfy`, `AffiliateProcessor.dfy` | commissions: balances, conservation under interleavings, clawback, counting |
| `Hosting.dfy` | placement of hosting accounts |
| `Ledger.dfy` | double-entry postings |
| `Automation.dfy` | automation jobs, deliveries and the link between them |
| `NotifierConfig.dfy`, `Notifier.dfy`, `NotifierRuns.dfy` | the service-inquiry notifier: its variables, serial calls, overlapping calls |
| `Routes.dfy`, `Dispatcher.dfy`, `DispatcherRuns.dfy` | webhook routes; the claim and the dispatch loop; serial runs with callbacks and retries |
| `DispatcherSteps.dfy`, `DispatcherOverlap.dfy` | overlapping workers and callbacks, statement by statement; two runs that go wrong |
| `Licenses.dfy`, `Subscriptions.dfy` | two reconcilers |
| `Polling.dfy` | one tick at a time per worker |
| `JsonText.dfy`, `JsonLd.dfy` | a JSON printer and parser after RFC 8259, and `safeJsonLd` |

## Where a promise does not hold as stated

Each of these is a theorem here: the exact condition under which the promise holds, and an input or a run that breaks it.

- The ledger's guard is a read with no unique key behind it. A PROCESSED order is posted exactly once iff each of its
  postings commits while there is none (`OneSale.ExactlyOneSaleIff`). An order with one ORDER_PAID event meets that when
  every worker finishes its batch within the lease and nobody posts the order by hand (`OneSale.SoldOnceWithinLeases`);
  a worker that outlives its lease may post twice (`Overlap.OverlapPostsTwice`). The API's own posting
  (`apps/api/src/modules/finance/finance.service.ts:342-393`, which nothing calls) has no guard at all
  (`OneSale.SellingTwice`).
- A posting has no row for a discount, so an order whose total is not its subtotal is refused (`Ledger.BuildsIff`,
  `Ledger.DiscountIsRefused`) and its ORDER_PAID event is never PROCESSED with the finance module on
  (`OneSale.DiscountedIsNeverProcessed`). The defect is latent: both writers of orders store a discount of zero
  (`apps/api/src/modules/orders/orders.service.ts:486-498`,
  `apps/api/src/modules/subscriptions/subscriptions.service.ts:201-210`).
- A clawback updates by id only. It keeps the balances iff the status at commit is the status it read
  (`Affiliate.ClawbackConservesIff`, `OneEffect.BalancedThroughoutIff`, `AffiliateRuns.StaleClawbackBreaksTheBalances`).
- `approvedCount` and `transitionedCount` are incremented inside the transaction callback and stay incremented
  when the commit fails; they are exact iff no commit fails late (`AffiliateRuns.ReportedEqualsMaturedIff`,
  `Subscriptions.ReportedEqualsLeftIff`); a run of one call with one such commit reports 1 where nothing changed
  (`AffiliateRuns.LateAbortIsReported`, `Subscriptions.LateAbortIsReported`).
- A hosting activation that fails leaves the account PROVISIONING (`Hosting.CreatedStatus`), and no redelivery returns
  to it (`Hosting.StuckForever`, `Hosting.ActivationFailsOnce`).
- A hosting entitlement for which production has no server with room, or whose account cannot be created, is skipped,
  and its event becomes PROCESSED all the same, so that no redelivery comes back to it. Every entitlement of a PROCESSED
  order has exactly one account otherwise (`OneEffect.OneEffect`, `OneEffect.MissedWasTurnedAway`, `Hosting.OneLeaves`).
- A hosting server is chosen and its place taken in separate statements. Servers stay within their limits iff every
  activation still finds room at its commit (`Capacity.FitsThroughoutIff`); two overlapping bodies can take the same
  last place (`Capacity.OverlapOverfills`).
- A passed route check does not mean that the URL parses. Outside production one bad URL makes the dispatch
  throw and leaves the claimed jobs RUNNING (`Dispatcher.NoStrandedJob`, `Dispatcher.BadUrlStrands`).
- Whether a refused webhook call is retried is decided by searching the error text for `retryable=true`, and the
  text contains the answer's body (`Routes.RetryableIff`, `Routes.MarkerIsRetried`).
- An administrator's retry moves the job and not its delivery (`DispatcherRuns.RetryKeepsLockstepIff`,
  `DispatcherRuns.RetryLeavesDeliveryBehind`).
- The dispatcher settles by id alone. A completed job stays completed iff no worker whose call of it failed settles it
  afterwards (`DispatcherSteps.SuccessLastsIff`); a callback that arrives during the call is lost
  (`DispatcherOverlap.CompletionIsLost`). Jobs and deliveries stay in step, wherever no statement is outstanding, iff each
  delivery is written while its job is where the write assumes and no crash leaves a job half done
  (`DispatcherSteps.SteadyThroughoutIff`); a worker that outlives its lease can break that (`DispatcherOverlap.LateMark`).
- The notifier's documentation says lease reclaims are safe. Its notices have no unique key: nobody is notified twice
  iff no call writes a notice for a person who got one after it read (`NotifierRuns.NotifiedOnceIff`,
  `NotifierRuns.OverlapNotifiesTwice`). The audit row is guarded in the same way (`NotifierRuns.AuditedOnceIff`,
  `NotifierRuns.OverlapAuditsTwice`). Email jobs do have a key, so a mailbox gets one job
  (`NotifierRuns.OneJobPerKey`); but the hourly cap is counted once per call, and holds iff each job is created while
  the hour before still has room (`NotifierRuns.CapHoldsIff`, `NotifierRuns.OverlapExceedsCap`).
- Licences whose owner has no address can fill every batch of the anti-join (`Licenses.ProgressIff`), for
  any number of ticks (`Licenses.MuteLicencesStall`, `Licenses.OneMuteLicence`).

## Model

| member | source | states |
|---|---|---|
| OneEffect.OneEffect | apps/worker/src/outbox-processor.ts:143-177 | one effect from many deliveries: in every run of crashes, lost leases, failures and overlapping bodies, with maturations, refunds, clawbacks, administration and invoices in between, a PROCESSED ORDER_PAID event leaves one referral if some account earns from its order (the one the order names by id or code, active, not the buyer's) with exactly that account's share, and none otherwise; exactly one hosting account for every hosting entitlement of the order, unless a body of the order came to it and in production no server had room, or its account could not be created; and the sale in a zero-sum ledger; balances are the sums of their referrals if no clawback was stale |
| OneEffect.EveryRequestHasItsAccount | apps/worker/src/hosting-processor.ts:64-152 | so if none of those happened to an entitlement of the order, exactly one account is for it |
| OneEffect.MissedWasTurnedAway | apps/worker/src/hosting-processor.ts:85-152 | an entitlement is only ever left when no active, real server with room exists in production, the insert fails, or one of the three unique keys is taken, at the state in which the statement runs |
| Fulfilment.BothAreFulfilled | apps/worker/src/hosting-processor.ts:62-258 | a run: two entitlements, a server with two places, nothing fails; the event is PROCESSED and each entitlement has its one account, both active |
| OneEffect.NobodyEarnsFromThemselves | apps/worker/src/affiliate-processor.ts:34-58 | at any time of any run no referral is for the account of the order's own buyer or for one that is not active |
| OneEffect.RunKeepsInv | apps/worker/src/outbox-processor.ts:131-339 | whatever statement a handler has completed stays achieved, under every action of every worker and every transaction of the rest of the system |
| OneEffect.BalancedThroughoutIff | apps/worker/src/affiliate-processor.ts:59-141 | balances are the sums of their referrals in every state of a run iff no clawback of the run commits on a status it did not read |
| OneEffect.DoKeepsInv | apps/worker/src/outbox-processor.ts:159-177 | one statement of one body keeps the tables' laws and undoes no other body's work |
| OneEffect.AllWorkIsDone | apps/worker/src/outbox-processor.ts:159-177 | a body that ran to its end has made the referral if one is earned, come to every hosting entitlement of the order, and made the posting |
| OneSale.SoldAtMostOnceIff | apps/worker/src/ledger-processor.ts:121-175 | over any run an order has at most one sale iff each of its postings, the handler's and the API's, commits while the ledger has no sale of it |
| OneSale.RunKeepsWholeSale | apps/worker/src/ledger-processor.ts:121-175 | in every run, where the ledger has a sale of an order it has the whole payment posting the sale belongs to |
| OneSale.ExactlyOneSaleIff | apps/worker/src/ledger-processor.ts:121-175 | a PROCESSED order has exactly one whole payment posting, receivable and tax rows included, iff each of its postings committed while there was none, from any lawful tables in which it was sold at most once |
| OneSale.SellingTwice | apps/api/src/modules/finance/finance.service.ts:342-393 | the API's own posting has no guard: two in a row leave two sales more |
| OneSale.DisjointSuffices | apps/worker/src/ledger-processor.ts:121-175 | runs in which no two workers are between guard and transaction of the order at once, and nobody posts it by hand, meet that condition |
| OneSale.NoOverlapSuffices | apps/worker/src/ledger-processor.ts:121-175 | so do runs in which handler bodies of the order never overlap and nobody posts it by hand |
| OneSale.SoldOnceWithinLeases | apps/worker/src/outbox-processor.ts:65-82 | so do runs in which every worker is done with its batch within the lease and nobody posts the order by hand, when the order has one ORDER_PAID event: the order is then sold exactly once |
| Leases.InTimeMeansHeld | apps/worker/src/outbox-processor.ts:65-82 | a worker within its lease, at an event it has not settled, still holds the row, and nothing has happened to it since its claim |
| Leases.NeverTwoAtOneEvent | apps/worker/src/outbox-processor.ts:65-82 | two workers within their leases are never at the same event |
| OneSale.DiscountedIsNeverProcessed | apps/worker/src/ledger-processor.ts:145-157 | an order whose total is not its subtotal is never PROCESSED while the finance module is on |
| Overlap.OverlapPostsTwice | apps/worker/src/ledger-processor.ts:121-175 | the condition can fail: a run of the protocol, lease expiry included, that posts one order's sale twice |
| OrderPaid.ReadsComeFirst | apps/worker/src/outbox-processor.ts:159-177 | in the handler's sequence of statements each guarded transaction directly follows its read, and an account is created right after the check and the choice of a server for the same entitlement |
| OrderPaid.ProgramVisits | apps/worker/src/hosting-processor.ts:64-65 | the sequence has the statements of every hosting entitlement of the order |
| OrderPaid.AffStep | apps/worker/src/affiliate-processor.ts:59-95 | read and transaction of the referral: what a completed step has achieved and what the read entitles the handler to assume |
| OrderPaid.LedStep | apps/worker/src/ledger-processor.ts:53-175 | invoice, guard and posting: the ledger stays zero-sum and a statement adds nothing or one whole posting that was built |
| OrderPaid.HostStep | apps/worker/src/hosting-processor.ts:64-182 | check, choice, creation and activation: no entitlement gets a second account, whatever was read before, and none is passed over that neither has one nor is on record as missed |
| OrderPaid.HostingMeans | apps/worker/src/hosting-processor.ts:81-182 | with nothing in the way the choice is a least-loaded server with room (a real one in production), the account carries the order, the entitlement, its domain and user name, and the activation takes one place |
| Outside.ChangeKeeps | apps/worker/src/affiliate-processor.ts:102-182 | maturation, clawback, referral by the API, account and server administration, invoices, refund postings and the API's own payment posting keep every law of these tables and undo no handler's work; only the last adds a sale |
| Outside.ChangesArePossible | apps/worker/src/affiliate-processor.ts:102-182 | those transactions are not ruled out by the model: maturation and clawback of any referral, an invoice for an order without one, refunds and sales whose rows balance |
| Ledger.FeeBalances | apps/api/src/modules/finance/finance.service.ts:342-393 | the gateway fee of that posting balances by itself, so the builder accepts the posting iff it does without the fee |
| Outside.ChangeConservesIff | apps/worker/src/affiliate-processor.ts:102-182 | of all of them exactly a clawback on a status that has moved on breaks the balances |
| Capacity.FitsThroughoutIff | apps/worker/src/hosting-processor.ts:81-182 | under overlapping bodies servers stay within their limits iff every activation still finds room when it commits |
| Capacity.OverlapOverfills | apps/worker/src/hosting-processor.ts:81-182 | a run of two overlapping bodies that both choose the last place of a server and overfill it |
| OutboxRow.RetryInvariant | apps/worker/src/outbox-processor.ts:233-328 | with maxRetries m, FAILED rows have exactly m retries and all others fewer; PROCESSING iff lock owner and lock time are set; settles that took effect are counted |
| OutboxRow.SettlesAreBounded | apps/worker/src/outbox-processor.ts:286-328 | at most m settles of one event take effect |
| OutboxRow.TerminalIsFinal | apps/worker/src/outbox-processor.ts:65-82 | no statement matches a PROCESSED or FAILED row |
| OutboxRow.ClaimsAreUnbounded | apps/worker/src/outbox-processor.ts:65-82 | claims have no bound, because a reclaim is not a retry |
| OutboxRow.HeldByLastClaim | apps/worker/src/outbox-processor.ts:73-82 | a row is PROCESSING exactly when the last statement on it was a claim, by its lock owner at its lock time |
| OutboxRow.ClaimsAreALeaseApart | apps/worker/src/outbox-processor.ts:65-68 | two claims with no settle between them are more than the lease apart |
| OutboxRow.BackoffSumClosedForm | apps/worker/src/outbox-processor.ts:291-293 | the delays before giving up add up to 1000(2^m - 2) ms for m up to 6 and 62000 + 60000(m - 6) ms beyond |
| OutboxRow.BackoffIsRespected | apps/worker/src/outbox-processor.ts:286-296 | failures are spaced by their delays in every history, stale reclaims included |
| OutboxRow.FailedNoEarlierThan | apps/worker/src/outbox-processor.ts:286-296 | an event ends FAILED no earlier than its first failure plus all delays |
| OutboxRow.ClaimableIff | apps/worker/src/outbox-processor.ts:65-68 | when a row can be claimed, from its history: at once when new; after a claim iff the lease has passed; after a failure iff a retry is left and 2, 4, 8, 16, 32 or then 60 seconds have passed; never when finished or given up |
| OutboxProtocol.StepKeepsInv | apps/worker/src/outbox-processor.ts:61-339 | every action of every worker keeps the protocol's invariant |
| OutboxProtocol.Fencing | apps/worker/src/outbox-processor.ts:233-246 | a settle takes effect iff nothing happened to the row since the worker's own claim, and then the retry count it read is the row's |
| OutboxProtocol.RetriesAreCounted | apps/worker/src/outbox-processor.ts:314-328 | a failing settle adds exactly one retry when it takes effect and changes nothing when it does not |
| OutboxProtocol.RowsFollowTheirHistories | apps/worker/src/outbox-processor.ts:61-328 | every row of every reachable table is the replay of a legal history, so the row laws hold in every run |
| OutboxProtocol.ProcessedMeansDone | apps/worker/src/outbox-processor.ts:143-246 | a PROCESSED row's handler ran to completion, and its event has a known type and, for orders and inquiries, the right kind of aggregate and a payload that does not name another one |
| OutboxProtocol.RoutableIff | apps/worker/src/outbox-processor.ts:143-231 | exactly those events get past the dispatch chain |
| OutboxProtocol.ReportedAtMostOnce | apps/worker/src/outbox-processor.ts:248-283 | each event is reported PROCESSED in at most one run's results across all workers |
| OutboxWorker.OutboxTables.PickClaimable | apps/worker/src/outbox-processor.ts:62-72 | the claimable among the oldest unlocked rows, all of them unless the batch is full |
| OutboxWorker.OutboxTables.ClaimRows | apps/worker/src/outbox-processor.ts:73-82 | the claim statement performs the claim of the protocol |
| OutboxWorker.OutboxTables.ReadClaimed | apps/worker/src/outbox-processor.ts:110-113 | the batch read is a snapshot of the claimed rows |
| OutboxWorker.OutboxTables.TakeBatch | apps/worker/src/outbox-processor.ts:61-113 | the batch is exactly the claimable events among the oldest unlocked ones, each once, up to the batch size; a retry count that was read is the row's at the claim as long as nobody has touched the row |
| OutboxWorker.OutboxTables.FinalizeProcessed | apps/worker/src/outbox-processor.ts:233-283 | the PROCESSED settle performs its protocol action, reply lost or not |
| OutboxWorker.OutboxTables.FinalizeFailed | apps/worker/src/outbox-processor.ts:285-337 | the failing settle performs its protocol action and reports the status the row has |
| OutboxWorker.OutboxTables.RunHandler | apps/worker/src/outbox-processor.ts:143-231 | the dispatch chain completes iff the event is routable and no step throws |
| OutboxWorker.OutboxTables.ProcessEvent | apps/worker/src/outbox-processor.ts:131-339 | one iteration reports what its turn calls for if the worker still held the row when it settled, and nothing otherwise: PROCESSED iff the handler ran through and that was answered, else PENDING or FAILED by the retry count |
| OutboxWorker.OutboxTables.ProcessOutboxEvents | apps/worker/src/outbox-processor.ts:48-345 | a call claims the claimable events among the oldest unlocked ones up to the batch size; its results are exactly what the turns of these events call for on the rows it still held, which are all of them when nobody else acts; it throws iff a failing settle is not answered; and it is a run of the protocol |
| Polling.OneTickAtATime | apps/worker/src/index.ts:90-155 | at most one tick of a worker is under way; a tick starts its tasks in the fixed order, each at most once |
| Polling.TasksIff | apps/worker/src/index.ts:96-139 | a tick has every task except the three whose feature is off |
| Polling.TasksInOrder | apps/worker/src/index.ts:96-139 | each once, in one order |
| Polling.EveryTaskRuns | apps/worker/src/index.ts:96-139 | a task that ends without throwing is followed by the next, and after the last the tick is over with all of them started |
| Polling.StopsAtFirstFailure | apps/worker/src/index.ts:140-155 | a tick whose task threw starts nothing more, whatever happens after |
| Polling.NoTickAfterShutdown | apps/worker/src/index.ts:93-94 | no tick starts after the shutdown signal |
| Affiliate.CommissionMinor | packages/database/src/domain/membership-affiliate-engine.ts:120-133 | the half-up share of the amount, at most the amount, and zero for a non-positive amount or rate |
| Affiliate.ResolveIff | apps/worker/src/affiliate-processor.ts:16-58 | an account earns from an order iff the order exists and names it, by id or else by code, and it exists, is active and belongs to another user; at most one does, and the commission is its share of the order's total |
| Affiliate.CreateConserves | apps/worker/src/affiliate-processor.ts:73-95 | creating a referral keeps every balance the sum of its referrals |
| Affiliate.MatureConserves | apps/worker/src/affiliate-processor.ts:160-182 | so does maturing one |
| Affiliate.ClawbackConservesIff | apps/worker/src/affiliate-processor.ts:111-140 | a clawback does iff the status at commit is the one it read, or no money is involved |
| Affiliate.ConsistentIsNonNegative | apps/worker/src/affiliate-processor.ts:86-92 | no balance is negative under the law |
| Affiliate.RefundUndoesPayment | apps/worker/src/affiliate-processor.ts:98-141 | paid, matured or not, refunded once or often: every balance is what the same maturation leaves without the order |
| Affiliate.RefundRestoresBalances | apps/worker/src/affiliate-processor.ts:98-141 | with no other referral maturing in between, exactly the balances from before |
| AffiliateRuns.StepConservesIff | apps/worker/src/affiliate-processor.ts:59-181 | any single action conserves iff it is not a stale clawback |
| AffiliateRuns.RunConserves | apps/worker/src/affiliate-processor.ts:59-181 | any interleaving without a stale clawback conserves |
| AffiliateRuns.CreationAndMaturationConserve | apps/worker/src/affiliate-processor.ts:59-95 | creation and maturation conserve in every interleaving, unconditionally, with non-negative balances |
| AffiliateRuns.NobodyEarnsFromThemselves | apps/worker/src/affiliate-processor.ts:34-58 | in no interleaving is anybody credited for an order of their own, or while not active |
| AffiliateRuns.HeldForThirtyDays | apps/worker/src/affiliate-processor.ts:71-182 | in every interleaving an order's commission becomes available no earlier than 30 days after any moment at which nobody had begun to create it |
| AffiliateRuns.StaleClawbackBreaksTheBalances | apps/worker/src/affiliate-processor.ts:102-128 | a run that shows the condition is needed |
| AffiliateRuns.CountsAddUp | apps/worker/src/affiliate-processor.ts:156-188 | returned counts are the referrals that matured, plus counts of commits that failed late, minus counts not returned |
| AffiliateRuns.ReportedEqualsMaturedIff | apps/worker/src/affiliate-processor.ts:156-188 | they are exact iff no commit failed after its callback had counted |
| AffiliateRuns.LateAbortIsReported | apps/worker/src/affiliate-processor.ts:156-188 | a run: one commit fails late, and the call reports an approval that did not happen |
| AffiliateProcessor.AffiliateTables.ProcessAffiliateReferralForOrder | apps/worker/src/affiliate-processor.ts:11-96 | null iff no account earns from the order; the existing referral if there is one; else the new one, for an active account that is not the buyer's, with its share, held for 30 days, and the credit, or neither when the transaction throws |
| AffiliateProcessor.AffiliateTables.ClawbackAffiliateReferralForOrder | apps/worker/src/affiliate-processor.ts:98-141 | the clawback, and true iff a referral was rejected |
| AffiliateProcessor.AffiliateTables.ReconcileMatureAffiliateReferrals | apps/worker/src/affiliate-processor.ts:146-189 | over the oldest mature referrals exactly those whose transactions commit are approved; transactions commit, fail, or fail late |
| AffiliateProcessor.PassCounts | apps/worker/src/affiliate-processor.ts:156-188 | a pass never undercounts and is exact when nothing fails late |
| Hosting.PickServer | apps/worker/src/hosting-processor.ts:81-92 | a least-loaded active server with room, never a simulated one in production; none only if there is none |
| Hosting.AllocatorGuarantee | apps/worker/src/hosting-processor.ts:85-225 | over serial runs no server is overfilled, simulated servers count their accounts, and over a fixed pool a server that received a placement has at most one account more than any with room |
| Hosting.PlacedInRun | apps/worker/src/hosting-processor.ts:64-182 | the servers the guarantee speaks of are those of the accounts the run added |
| Hosting.ProvisionKeeps | apps/worker/src/hosting-processor.ts:62-258 | one call keeps those laws |
| Hosting.EveryEntitlementIsVisited | apps/worker/src/hosting-processor.ts:64-255 | a call that does not throw leaves every entitlement with an account, unless at its turn no server had room in production, the insert failed, or its domain or user name was taken |
| Hosting.OnePlaces | apps/worker/src/hosting-processor.ts:81-182 | with nothing in the way exactly one account is added: the order's, with its keys, on a server with room that has no more accounts than any other with room, ACTIVE with one more place taken iff simulated and activated |
| Hosting.OneSeeds | apps/worker/src/hosting-processor.ts:94-117 | in development with no room a simulated server of 500 places is added and takes the account |
| Hosting.OneLeaves | apps/worker/src/hosting-processor.ts:85-152 | when an entitlement is left without an account, and when the call throws: exactly in development, with no room and the host name of the simulated server taken |
| Hosting.CountIsActive | apps/worker/src/hosting-processor.ts:168-259 | the count a call returns is the number of accounts it made active |
| Hosting.ProvisionNeverRevisits | apps/worker/src/hosting-processor.ts:64-72 | a call adds accounts and changes none; with all entitlements covered it changes nothing |
| Hosting.CreatedStatus | apps/worker/src/hosting-processor.ts:109-255 | an account a call creates is ACTIVE iff its server is simulated and its activation did not fail, and otherwise PROVISIONING |
| Hosting.StuckForever | apps/worker/src/hosting-processor.ts:64-72 | an account left PROVISIONING stays so in every later run of the worker |
| Hosting.ActivationFailsOnce | apps/worker/src/hosting-processor.ts:64-182 | a run: one failed activation, a redelivery in which nothing fails, and the account is still PROVISIONING |
| Hosting.SuspensionIs | apps/worker/src/hosting-processor.ts:264-387 | suspension takes all the active accounts it is for and leaves the others as they are |
| Hosting.HostingTables.ProvisionEntitlement | apps/worker/src/hosting-processor.ts:64-255 | one iteration, seeding and caught failures included: nothing for an entitlement that has an account, and exactly its one account when nothing is in the way |
| Hosting.HostingTables.ProcessHostingProvisioningForOrder | apps/worker/src/hosting-processor.ts:42-259 | the loop, and its counter, which is the number of accounts made active |
| Hosting.HostingTables.SuspendHostingAccountsForOrder | apps/worker/src/hosting-processor.ts:264-326 | the active accounts of the order are suspended one by one and counted, up to the one whose transaction throws; without one none is left active and no other account is touched |
| Hosting.HostingTables.SuspendHostingForRevokedEntitlement | apps/worker/src/hosting-processor.ts:331-387 | the entitlement's account is suspended, and true returned, iff it is active; nothing else changes |
| Ledger.BuildsIff | packages/database/src/domain/ledger-engine.ts:47-216 | the builders accept exactly the orders whose total plus tax equals what the rows say |
| Ledger.DiscountIsRefused | packages/database/src/domain/ledger-engine.ts:47-216 | at explicit orders: subtotal 100 and total 90 is refused, total 100 is posted |
| Ledger.PaymentPosts | apps/worker/src/ledger-processor.ts:53-191 | unless the order has a revenue row, a payment call adds exactly a debit of the receivables, a credit of the revenue and, with tax, a credit of the tax owed, with their amounts; it throws iff these do not balance |
| Ledger.RefundPosts | apps/worker/src/ledger-processor.ts:209-268 | likewise a refund call: the expense, the tax, and a credit of the receivables, behind the expense row |
| Ledger.RefundReturnsTaxIff | apps/worker/src/ledger-processor.ts:222-252 | the tax owed for a paid and refunded order nets to zero iff both postings carried the same tax row |
| Ledger.GuardIsSound | apps/worker/src/ledger-processor.ts:121-128 | a row of the guarding account exists iff the whole posting does |
| Ledger.PostKeepsInv | apps/worker/src/ledger-processor.ts:121-175 | a call posts once or finds the posting, throws iff there is none and the amounts do not balance, and the ledger stays a sequence of whole postings |
| Ledger.PostedAtMostOnce | apps/worker/src/ledger-processor.ts:209-252 | over serial runs an order has at most one payment and one refund posting, each whole, and no other rows |
| Ledger.PaidIsPostedOnce | apps/worker/src/ledger-processor.ts:121-252 | exactly once: over every serial run, the revenue in the books of an order whose amounts balance is its subtotal iff a payment call for it ran, and its refund expense likewise for refund calls; the order has one posting for each |
| Ledger.LedgerStaysZeroSum | packages/database/src/domain/ledger-engine.ts:136-141 | the whole ledger is zero-sum in every serial run |
| Ledger.RefundClearsReceivablesIff | apps/worker/src/ledger-processor.ts:222-234 | receivables of a paid and refunded order net to zero iff its invoice tax did not change in between |
| Ledger.LedgerTables.CreateAll | apps/worker/src/ledger-processor.ts:159-175 | the transaction's loop leaves all rows or none |
| Ledger.LedgerTables.ProcessFinancialLedgerForOrder | apps/worker/src/ledger-processor.ts:32-191 | the invoice, and behind the guard the receivable, revenue and tax rows with their amounts; throws iff there is no posting yet and the amounts do not balance or the transaction fails, and then adds no row |
| Ledger.LedgerTables.ProcessFinancialLedgerForOrderRefund | apps/worker/src/ledger-processor.ts:196-268 | behind its own guard the expense, tax and receivable rows with their amounts; throws iff there is no refund yet and the amounts do not balance or the transaction fails, and then nothing changes |
| Automation.EnqueueKeepsLinked | apps/worker/src/service-inquiry-notifier.ts:237-266 | the creating transaction keeps payload and job column pointing at each other |
| Automation.EnqueueIff | apps/worker/src/service-inquiry-notifier.ts:237-274 | it is rolled back exactly when a job or a delivery has the key |
| Dispatcher.EnqueuedIsDue | apps/worker/src/service-inquiry-notifier.ts:237-266 | the new job is due at once, for the first of three attempts, its delivery is PENDING, and both carry the key and the mailbox |
| NotifierConfig.PositiveInt | apps/worker/src/service-inquiry-notifier.ts:43-46 | the positive integer the variable reads as, if there is one, and otherwise the fallback; never zero |
| NotifierConfig.SplitKeepsText | apps/worker/src/service-inquiry-notifier.ts:50-52 | splitting the mailbox list drops separators and nothing else, in order |
| NotifierConfig.SplitIs | apps/worker/src/service-inquiry-notifier.ts:50-52 | the list is split at every run of separators and nowhere else |
| NotifierConfig.PartsHaveNoSeparators | apps/worker/src/service-inquiry-notifier.ts:50-52 | and no part has a comma, a semicolon or a blank |
| NotifierConfig.LoadNotifierConfig | apps/worker/src/service-inquiry-notifier.ts:48-78 | the mailboxes are the well-formed parts, trimmed and in lower case, once each in order of appearance, cut to the maximum (10 if none is set); malformed ones counted; the limits, 50 and 30 if none are set; the admin site's origin iff its URL parses and is a web URL |
| Notifier.SlidingWindow | apps/worker/src/service-inquiry-notifier.ts:217-273 | with one cap, every closed hour of every serial run has at most that many inquiry email jobs, whatever is cut where |
| Notifier.BudgetIs | apps/worker/src/service-inquiry-notifier.ts:217-223 | the budget of a call is the cap less the inquiry email jobs created in the 3600000 ms before |
| Notifier.OneMoreUnderCap | apps/worker/src/service-inquiry-notifier.ts:217-223 | counting the last hour before a job keeps every hour under the cap |
| Notifier.LoopResumes | apps/worker/src/service-inquiry-notifier.ts:227-274 | the loop continues after the last job of the inquiry, in order, while there is budget; what is missing is a suffix |
| Notifier.LoopKeepsLinked | apps/worker/src/service-inquiry-notifier.ts:227-266 | the loop keeps jobs and deliveries linked one to one |
| Notifier.Convergence | apps/worker/src/service-inquiry-notifier.ts:101-158 | after any runs cut between writes, one complete run leaves one notice per staff member, one audit row, and for the mailboxes in order, as many as the cap has room for, one job each with exactly one delivery, each pointing at the other |
| Notifier.RedeliveryIsANoOp | apps/worker/src/service-inquiry-notifier.ts:122-147 | running again on a finished inquiry changes nothing |
| Notifier.NoticesOnce | apps/worker/src/service-inquiry-notifier.ts:180-203 | a call completes the notices of an inquiry and never repeats one |
| NotifierRuns.NotifiedOnceIff | apps/worker/src/service-inquiry-notifier.ts:163-204 | over every run of overlapping calls nobody has two notices of an inquiry iff no write adds one for a person who got one after this call's read |
| NotifierRuns.OneAtATimeSuffices | apps/worker/src/service-inquiry-notifier.ts:163-204 | runs in which no two calls are between read and write of the inquiry meet that, crashes included |
| NotifierRuns.OverlapNotifiesTwice | apps/worker/src/service-inquiry-notifier.ts:180-203 | the condition can fail: a run of two calls that both read before either writes notifies everybody twice |
| NotifierRuns.AuditedOnceIff | apps/worker/src/service-inquiry-notifier.ts:125-147 | over every run of overlapping calls an inquiry has at most one audit row iff no call writes one after another has since it looked |
| NotifierRuns.OverlapAuditsTwice | apps/worker/src/service-inquiry-notifier.ts:125-147 | that can fail: two calls that both look before either writes leave two |
| NotifierRuns.OneJobPerKey | apps/worker/src/service-inquiry-notifier.ts:227-274 | however calls overlap, an inquiry and a mailbox have at most one job, linked to its delivery |
| NotifierRuns.CapHoldsIff | apps/worker/src/service-inquiry-notifier.ts:217-273 | over every run of overlapping calls the cap holds in every closed hour iff each job is created while the hour before has room |
| NotifierRuns.OverlapExceedsCap | apps/worker/src/service-inquiry-notifier.ts:217-234 | that can fail: under a cap of one, two calls that count before either creates put two jobs in one hour |
| NotifierRuns.MailboxIsEmailStep | apps/worker/src/service-inquiry-notifier.ts:227-273 | the interleaved steps of one mailbox, taken in a row, are the step of the serial loop |
| Notifier.NotifierTables.NotifyStaff | apps/worker/src/service-inquiry-notifier.ts:163-204 | exactly the staff without a notice get one |
| Notifier.NotifierTables.QueueEmails | apps/worker/src/service-inquiry-notifier.ts:211-275 | the loop with budget, suppression and a statement that may throw |
| Notifier.NotifierTables.ProcessServiceInquiryCreatedEvent | apps/worker/src/service-inquiry-notifier.ts:101-158 | missing id, missing inquiry, cut anywhere, or handled with the counts and the suppression flag it reports |
| Routes.NoRouteIff | apps/worker/src/automation-dispatcher.ts:61-98 | when a supported type has no route outside production; a blank specific URL hides the base |
| Routes.ResolvedIsUsable | apps/worker/src/automation-dispatcher.ts:100-111 | a resolved URL is never empty and, in production, always parses |
| Routes.ResolveIff | apps/worker/src/automation-dispatcher.ts:61-112 | a supported type resolves to its own variable, or else to a base with its path, trimmed, iff something is left and, in production, that text is a trusted origin |
| Routes.BaseRoute | apps/worker/src/automation-dispatcher.ts:80-88 | without a specific URL the route is the trimmed base without trailing slashes, with the path of the type |
| Routes.PathsAreNames | apps/worker/src/automation-dispatcher.ts:38-44 | the path of a type is /webhook/ and its name in lower case with dashes |
| Routes.SupportedIff | apps/worker/src/automation-dispatcher.ts:31-36 | every type but external allocation is supported |
| Routes.TrimIs | apps/worker/src/automation-dispatcher.ts:85-112 | trimming drops the blanks at both ends, all of them and nothing else |
| Routes.TrimSlashesIs | apps/worker/src/automation-dispatcher.ts:86-87 | slashes are dropped at the end of a base, all of them and nothing else |
| Routes.BaseRoutesDiffer | apps/worker/src/automation-dispatcher.ts:38-44 | two types that share a base never share a route |
| Routes.ValidateAutomationRoutes | apps/worker/src/automation-dispatcher.ts:483-502 | valid iff every supported, enabled type has a route; missing lists exactly the others |
| Routes.RetryableIff | apps/worker/src/automation-dispatcher.ts:198-217 | a failure is retried iff it is a network error, its status is 429 or at least 500, or its body contains the marker |
| Routes.MarkerIsRetried | apps/worker/src/automation-dispatcher.ts:198-217 | at an explicit answer: a 400 is final, a 400 that quotes the marker is retried |
| Dispatcher.NoStrandedJob | apps/worker/src/automation-dispatcher.ts:302-395 | after a valid check every claimed job is accepted, requeued or failed, none skipped; the call throws iff some claimed job's URL does not parse |
| Dispatcher.BadUrlStrands | apps/worker/src/automation-dispatcher.ts:142-160 | at explicit variables: the route check passes, the call throws, the claimed job is RUNNING |
| Dispatcher.AnswersDecide | apps/worker/src/automation-dispatcher.ts:198-393 | over a whole call: a claimed job answered with 429, 5xx, a network error or a body with the marker is PENDING again, with its delivery, 30, 120 or 600 seconds later while an attempt is left; any other refusal fails both; an accepted one stays RUNNING and SENDING |
| Dispatcher.NoStrandedJobInProduction | apps/worker/src/automation-dispatcher.ts:250-263 | in production it never throws half-way |
| DispatcherRuns.CallKeepsLockstep | apps/worker/src/automation-dispatcher.ts:302-393 | a completed call leaves every job in step with its delivery |
| DispatcherRuns.RunKeepsLockstep | apps/worker/src/automation-dispatcher.ts:403-453 | so do whole runs of completed calls with callbacks, drafts and retries between them, except that a retried job may be ahead of its FAILED delivery |
| DispatcherRuns.TerminalizeKeepsLockstep | packages/database/src/domain/automation-engine.ts:69-100 | exhausted stale jobs fail together with their deliveries |
| DispatcherRuns.CallbacksKeepLockstep | apps/api/src/modules/automation/automation.service.ts:230-440 | completing, failing and cancelling callbacks and the result of an AI draft keep job and delivery in step |
| DispatcherRuns.CallbacksAre | apps/api/src/modules/automation/automation.service.ts:230-440 | what each callback does to a job that is where it has to be, and to its deliveries; any other job it leaves alone |
| DispatcherRuns.DraftIsDue | apps/api/src/modules/automation/automation.service.ts:458-570 | a draft that is asked for is due at once, for the first of three attempts, without a delivery, and once per key |
| DispatcherRuns.RetryKeepsLockstepIff | apps/api/src/modules/automation/automation.service.ts:382-421 | the administrator's retry does iff it has nothing to do, the job has no delivery, or the delivery was already late |
| DispatcherRuns.RetryLeavesDeliveryBehind | apps/api/src/modules/automation/automation.service.ts:382-421 | a run: sent, refused, retried; the job is PENDING and its delivery FAILED |
| DispatcherRuns.SettlementPathsAgree | apps/worker/src/automation-dispatcher.ts:433-453 | in every reachable queue the dispatcher's way to a delivery, by the payload, and the callbacks' way, by the job column, move the same rows |
| Dispatcher.DueAgainIff | apps/worker/src/automation-dispatcher.ts:344-378 | over a whole call: when a claimed job can be claimed again: its type allowed and an attempt left, and after its lease, or after 30, 120 or 600 seconds when its webhook call failed retryably, or never when it failed otherwise |
| Dispatcher.OutsideTheBatch | packages/database/src/domain/automation-engine.ts:68-139 | a call leaves a job outside its batch alone, unless its attempts are exhausted; then it is given up for good |
| Dispatcher.StaleIsDueOrGivenUp | packages/database/src/domain/automation-engine.ts:68-139 | a job whose lease has run out is due again while an attempt is left, and otherwise failed with its open deliveries; nothing else is touched |
| DispatcherRuns.DispatchesAreBounded | packages/database/src/domain/automation-engine.ts:114-139 | a job's webhook is called at most maxAttempts times over any serial run, throwing calls included, and as often again for each retry of the administrator |
| DispatcherSteps.SteadyThroughoutIff | apps/worker/src/automation-dispatcher.ts:302-393 | over every run of overlapping workers, callbacks, administrators and crashes: every job to which no worker owes a statement is in step with its delivery at every moment, iff each delivery is written while its job is where the write assumes and no crash leaves a job half done |
| DispatcherSteps.QuietRunsAreSteady | apps/worker/src/automation-dispatcher.ts:302-393 | that holds in runs without crashes in which nobody moves a job between its claim and its mark or between its settlement and its delivery's |
| DispatcherSteps.SuccessLastsIff | apps/worker/src/automation-dispatcher.ts:344-378 | a completed job stays completed iff no worker whose call of it failed settles it afterwards |
| DispatcherSteps.CallsAreBounded | packages/database/src/domain/automation-engine.ts:114-139 | under every interleaving, crashes included, a job's webhook is called at most maxAttempts times, and as often again for each retry of the administrator |
| DispatcherSteps.JobInARow | apps/worker/src/automation-dispatcher.ts:302-393 | the interleaved steps of one job, taken in a row, are the serial dispatch of it |
| DispatcherOverlap.CompletionIsLost | apps/worker/src/automation-dispatcher.ts:344-378 | a run: the completion arrives during the webhook call, the call fails, and the completed job is due again |
| DispatcherOverlap.LateMark | apps/worker/src/automation-dispatcher.ts:142-180 | a run: a worker that outlived its lease marks the delivery of a completed job, and it stays SENDING |
| Dispatcher.GuardIsRedundant | apps/worker/src/automation-dispatcher.ts:281-286 | the filter after the claim never removes anything |
| Dispatcher.DispatchableIff | apps/worker/src/automation-dispatcher.ts:281-286 | the filter itself keeps exactly the jobs of supported types that are not disabled |
| Dispatcher.AutomationTables.ClaimDueAutomationJobs | packages/database/src/domain/automation-engine.ts:61-151 | exhausted jobs are failed, then the oldest due unlocked jobs of allowed types claimed, all of them unless the batch is full, each with one more attempt |
| Dispatcher.AutomationTables.DispatchClaimed | apps/worker/src/automation-dispatcher.ts:302-393 | one claimed job through route, webhook and settlement |
| Dispatcher.AutomationTables.DispatchSingleAutomationJob | apps/worker/src/automation-dispatcher.ts:142-219 | the delivery is SENDING before the call; a URL that does not parse throws before anything |
| Dispatcher.AutomationTables.FailClaimedJobForRouteConfiguration | apps/worker/src/automation-dispatcher.ts:403-426 | the job and all its deliveries are FAILED, and nothing else changes |
| Dispatcher.AutomationTables.SettleDeliveryAfterDispatchFailure | apps/worker/src/automation-dispatcher.ts:433-453 | the delivery of the payload goes back to PENDING or to FAILED |
| Dispatcher.AutomationTables.DispatchPendingAutomationJobs | apps/worker/src/automation-dispatcher.ts:224-396 | nothing is claimed without secret and routes; otherwise the oldest due jobs are claimed, the call throws iff one's URL does not parse, every job it gets to is settled as its webhook's answer says (retried on 429, 5xx, network errors and the marker while an attempt is left, failed otherwise) with its delivery, and the counts add up |
| Licenses.FallbackIsSound | apps/worker/src/license-provisioner.ts:84-100 | the fallback finds only what the anti-join could, and all of it when the active licences fit a batch |
| Licenses.FallbackStallsIff | apps/worker/src/license-provisioner.ts:84-100 | it finds nothing once the first batch is covered |
| Licenses.TickDecrease | apps/worker/src/license-provisioner.ts:70-108 | a tick covers exactly min(b, uncovered) licences when enqueueing succeeds |
| Licenses.Converges | apps/worker/src/license-provisioner.ts:70-108 | k ticks leave n - min(n, kb), so nothing is left iff kb is at least n |
| Licenses.EnoughTicksIff | apps/worker/src/license-provisioner.ts:70-108 | nothing is left iff there were at least n / b ticks, rounded up |
| Licenses.ProgressIff | apps/worker/src/license-provisioner.ts:72-82 | every batch makes progress iff fewer than a batch of the uncovered licences have no address |
| Licenses.MuteLicencesStall | apps/worker/src/license-provisioner.ts:72-82 | when it fails, any number of ticks may find only licences without an address and cover nothing |
| Licenses.OneMuteLicence | apps/worker/src/license-provisioner.ts:72-82 | at explicit licences: one without an address and ticks of one |
| Licenses.LicenseTables.ReconcileMissingLicenseProvisionedEmailJobs | apps/worker/src/license-provisioner.ts:63-138 | query or fallback, then one enqueue each, cut where one throws |
| Subscriptions.CancellationRevokes | apps/worker/src/subscription-reconciler.ts:24-56 | a cancellation that commits sets status and both times, and revokes exactly the active entitlements of the subscription; an expiry without the flag makes it PAST_DUE; nothing else has changed |
| Subscriptions.TransitionIsCurrentIff | apps/worker/src/subscription-reconciler.ts:29-39 | a transition is the one a fresh read would make iff the subscription is still expired and its flag unchanged |
| Subscriptions.TransitionsAreCurrent | apps/worker/src/subscription-reconciler.ts:11-39 | in every interleaving with everything that writes these tables each transition is the one a fresh read at its commit would make, however old the read |
| Subscriptions.FlagsStayClear | apps/api/src/modules/subscriptions/subscriptions.service.ts:155-166 | no writer sets the flag, so where nothing sets it from outside the reconciler never cancels |
| Subscriptions.RunKeepsRevoked | apps/worker/src/subscription-reconciler.ts:41-54 | in every interleaving with checkouts, cancellations by hand, grants, revocations and expiries no canceled subscription has an active entitlement |
| Subscriptions.CountsAddUp | apps/worker/src/subscription-reconciler.ts:20-63 | returned counts are the subscriptions taken out of ACTIVE, plus late failures, minus counts not returned |
| Subscriptions.ReportedEqualsLeftIff | apps/worker/src/subscription-reconciler.ts:41-56 | they are exact iff no commit failed late |
| Subscriptions.LateAbortIsReported | apps/worker/src/subscription-reconciler.ts:41-63 | a run: one commit fails late, and the call reports a transition that did not happen |
| Subscriptions.PassReachesTargets | apps/worker/src/subscription-reconciler.ts:22-61 | a call alone moves exactly the subscriptions whose transactions commit, each by its flag |
| Subscriptions.SubscriptionTables.ReconcileExpiredSubscriptions | apps/worker/src/subscription-reconciler.ts:7-64 | over the expired subscriptions by end of period, exactly those whose transactions commit move, each by its flag; transactions commit, fail or fail late |
| JsonText.PrintRoundTrip | packages/utils/src/json-ld.ts:6-6 | parsing by RFC 8259 inverts the printer, for every JSON value |
| JsonText.PrintIsWellFormed | packages/utils/src/json-ld.ts:6-6 | the text has no lone surrogate, whatever strings the value holds |
| JsonText.IsNumberIff | packages/utils/src/json-ld.ts:6-6 | the number tokens are exactly those of the grammar in section 6 of RFC 8259 |
| JsonText.ArrayText | packages/utils/src/json-ld.ts:6-6 | at an explicit array, the text the printer makes |
| JsonText.ObjectText | packages/utils/src/json-ld.ts:6-6 | at an explicit object whose key is a line feed, likewise |
| JsonLd.AnyOrder | packages/utils/src/json-ld.ts:8-11 | the three replacements equal one single-pass escape, in any order |
| JsonLd.NoMarkup | packages/utils/src/json-ld.ts:9-11 | the output has no markup character |
| JsonLd.EscapeKeepsMeaning | packages/utils/src/json-ld.ts:8-11 | escaping keeps the value of every JSON text, also after runs of backslashes |
| JsonLd.MalformedTextMayChange | packages/utils/src/json-ld.ts:8-11 | that hypothesis is needed: a text that is not JSON may change its meaning; the printer never returns one |
| JsonLd.SafeJsonLdRoundTrip | packages/utils/src/json-ld.ts:5-12 | for every JSON value the output parses back to it and contains none of <, > and & |

## Left out

- OneEffect.OneEffect: entitlement issue and the receipt email are steps without effect on the modelled tables; their engines are idempotent by unique keys and are not modelled.
- Outside.ChangeKeeps: payouts, the deletion of an unused hosting server and changes of an affiliate's status or rate by the API are not among the transactions modelled.
- Notifier.Convergence: the counts stored in the audit row and all timestamps are left open; mailbox hashes are taken to be distinct on the configured mailboxes.
- DispatcherRuns.RunKeepsLockstep: serial runs of completed calls only; overlapping and killed calls are in `DispatcherSteps`.
- DispatcherSteps.SteadyThroughoutIff: starts from a passed route check, so a job skipped or failed for its route is in the serial model only.
- Licenses.Converges: ticks without a change of the active licences in between.
- Handlers of ticket events, and the outbox events that hosting transactions emit themselves.
- DNS records, hosting termination and usage synchronisation, affiliate payouts and PAID referrals.
- The claim fallback for test environments, and local seeding beyond the server row.
- The limit of three open AI drafts per administrator and the content a draft becomes.
- Text functions: sanitizing error messages, the mailbox pattern, the URL parser and lower-casing are parameters; titles and messages are not modelled.
- HTTP, signatures, encryption, BullMQ, logging, and columns that only record a time or a text.
- Expiry of entitlements by time, content publishing, allocation and ticket reconciliation: unconditional updates behind one comparison.
- `JSON.stringify` on cyclic values, `toJSON` and functions: the model starts from a JSON value whose numbers are their text.
- Prisma's reply to a single-row update of a missing row: foreign keys keep every row that is updated by id in place.
