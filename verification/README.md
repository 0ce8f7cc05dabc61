# Verified model of the shop platform

A Dafny 4.11 model of the order platform: the order flow across the orders, inventory and
payments services, the jobs and tools that act on the same rows, the product cache, the bounded
log read, and two text formats the tools write and read back. `dafny verify dfyconfig.toml` checks
everything.

## What is modelled

**Inventory.** `Inventory` gives every request as a function on the two tables. `InventoryService`
is the service as it runs, a class whose statement loops are proved to compute those functions.
`InventoryLaws` proves what holds over any run of requests. `RowLocks` runs any number of
transactions UPDATE by UPDATE under row locks and proves that the interleaving cannot be seen, that
nothing is lost, and that no deadlock exists.

**Payments.** `Payments` has the charge request as a class method, and a machine in which any number
of requests for one order interleave commit by commit and die anywhere. Three conditions on a run,
from the weakest guard to one a caller can keep, say what is promised under each.

**Orders.** `OrderState` is the status table, the audit trail and the counters. `Saga` is the whole
order flow as one labelled transition system: any number of create requests, cancellations and
overlapping expiry runs over the three services' tables, with an explicit clock. `OrderFlow` is one
create or cancel request as the service's methods run it, and the proof that a saga flow given the
same answers writes the same order. In `Saga` every database commit is one step. An outbound call is
sent, served and heard in separate steps, so it may take effect and be answered, take effect
unanswered, be lost, or be refused, and a call given up on may still land later; any process may die
at any point. `SagaAlways` proves the invariant that holds whatever the settings: calls sent once,
payments, stock and rows. `SagaInvariant`, `SagaSteps` and `SagaSafety` prove the larger one that
holds when the expiry window outlasts a create flow and the calls it leaves behind. `SagaTheorems`
draws the promises from both. `SagaTiming`, `SagaLawful` and `SagaCosts` show exactly how long the
window has to be, and for what: to keep expiry off running flows, to keep every status write within
the table, to expire no paid order, and to expire none that still holds stock. `Upstream` is the classification of upstream answers that picks the saga's branch.
`Expiry` is one run of the expiry job over its batch, and how many runs a backlog takes.
`ReconcileStock` is the stock repair tool.

**The rest.** `ProductCache` is the cache with the endpoints around it, requests one at a time;
`Staleness` interleaves its readers with writers and loses invalidations. `LogTail` is the bounded
read of the JSON logs. `EnvFile` is the edit and undo of `.env`. `IncidentIndex` is the incident
table, written by one tool and read by another service.

A SKU is represented by its rank in the sort order, an order id by its position in the table, and
times by whole units of one clock.

## Where the code and its documentation part

- The settings comment bounds an order's time in flight by one inventory and one payments timeout
  (services/orders/app/config.py:20-21). The flow makes two inventory calls after the insert, so the
  bound proved is twice the inventory timeout plus the payments timeout plus local time
  (`Saga.FlowBound`). The shipped floor still clears it. The settings accept timeouts for which it
  does not. `SagaTiming.MeetsOnlyIfTooShort`, `SagaLawful.WritesAreLawfulIff` and
  `SagaCosts.PaidAndExpiredIff` show that the bound is exact; `SagaTiming.ShortWindowReopens` is a
  run that a shorter window allows. Charging once and conserving stock do not depend on the window.
- The bounded log read says the line at the seek point is partial
  (common/common/logsearch.py:97). A line that starts exactly there is whole, and is discarded too:
  `LogTail.WholeOnlyIfItFits`.
- Setting and restoring `.env` is not an exact undo for every file: `EnvFile.UndoneExactly` gives the
  condition, `EnvFile.BareKeyIsLost` and `EnvFile.SecondValueIsLost` two files outside it.
- Overlapping retries of one declined payment can charge twice, and the second can write over a
  recorded success: `Payments.OverlappingRetriesChargeTwice`, with the exact condition in
  `Payments.StaleRetryChargesTwiceIff`. One charge request at a time per order is enough
  (`Payments.OneAtATimeIsEnough`), and the order flow sends only one
  (`SagaTheorems.ChargedOnce`).
- A row below the end of the incident table with the same id hides a newly written one:
  `IncidentIndex.AppendReadsBack`.

## Model

| member | source | states |
|---|---|---|
| InventoryService.Service.TakeLines | services/inventory/app/service.py:126-155 | the conditional UPDATE per line leaves every stock reduced by its line, or stops at the first line, in SKU order, that the stock cannot meet |
| InventoryService.Service.Reserve | services/inventory/app/service.py:92-160 | the whole request, rollback included: new tables and answer equal the all-or-nothing reserve on the tables it found |
| InventoryService.Service.Commit | services/inventory/app/service.py:163-181 | every row of the order becomes committed, or the request is refused (no rows, or any released) and nothing changes |
| InventoryService.Service.GiveBack | services/inventory/app/service.py:189-198 | one released row returns its units once, and what is left to release of the order is unchanged |
| InventoryService.Service.Release | services/inventory/app/service.py:184-202 | the loop over rows in SKU order returns exactly the live rows' units, counts them in its total, and marks all rows released |
| InventoryService.Service.Adjust | services/inventory/app/service.py:67-89 | stock moves by the delta, or an unknown product or a removal below zero is refused without change |
| InventoryService.Service.Create | services/inventory/app/service.py:46-64 | a new SKU gets its stock, and one that exists is refused without change |
| InventoryLaws.ReserveDecides | services/inventory/app/service.py:92-160 | with no live rows it succeeds iff SKUs are distinct, known and each stock suffices; success changes exactly those stocks and adds one row per line, failure changes nothing |
| InventoryLaws.ReserveIgnoresLineOrder | services/inventory/app/service.py:124-126 | the order in which lines are given is invisible in tables and answer |
| InventoryLaws.ReserveReplays | services/inventory/app/service.py:103-110 | reserving again while rows are live answers them and takes no stock |
| InventoryLaws.SkuOrderAscends | services/inventory/app/service.py:124-126 | distinct lines come out strictly ascending, so no row is locked twice |
| InventoryLaws.ApplyConserves | services/inventory/app/service.py:46-202 | every request keeps stock plus units on live rows equal to what was brought in |
| InventoryLaws.ApplyKeepsTables | services/inventory/app/models.py:40-45 | no request makes stock negative or a row point at no product |
| InventoryLaws.ApplyKeepsLifecycle | services/inventory/app/service.py:103-202 | every request keeps each order's live rows in one status and on distinct products, and committed rows alone |
| InventoryLaws.RunKeeps | services/inventory/app/service.py:46-202 | conservation, non-negative stock and the row lifecycle over any run of requests |
| InventoryLaws.CommitRefusedForEver | services/inventory/app/service.py:163-175 | after a release, commit is refused after any later requests, a new reserve included |
| InventoryLaws.ReleaseIsIdempotent | services/inventory/app/service.py:184-202 | releasing twice leaves the same tables and answer as releasing once |
| InventoryLaws.ReleaseUndoesReserve | services/inventory/app/service.py:92-202 | releasing what a successful reserve took restores every stock |
| RowLocks.RollBackOk | services/inventory/app/db.py:36-43 | a rollback leaves the committed tables as they were and everything else sound |
| RowLocks.RefusalIsAtomic | services/inventory/app/service.py:134-147 | an UPDATE refused in the middle of others gives the refusal the whole request gets from the committed tables at that moment |
| RowLocks.FinishIsAtomic | services/inventory/app/service.py:123-160 | at its commit a transaction has, on the committed tables, exactly the effect of the request run alone |
| RowLocks.ReleaseLines | services/inventory/app/service.py:186-196 | a release's updates are strictly ascending by product and add up to the units of the order's live rows |
| RowLocks.StepRefines | services/inventory/app/service.py:123-198 | no statement but a commit changes the committed tables, and every step keeps stock non-negative and locks exclusive |
| RowLocks.InterleavingIsSerial | services/inventory/app/service.py:123-198 | for any interleaving the committed tables are those of the same requests run one at a time in commit order, and stock is never negative, committed or not |
| RowLocks.FromQuietTables | services/inventory/app/service.py:123-198 | in particular from any lawful tables with no transaction running |
| RowLocks.NothingIsLost | services/inventory/app/service.py:123-198 | after any interleaving, stock corrected for in-flight updates plus live rows equals what was brought in |
| RowLocks.NoWaitCycle | services/inventory/app/service.py:124-126 | no chain of transactions waiting for each other's row locks closes into a cycle |
| RowLocks.NoDeadlock | services/inventory/app/service.py:243-245 | whenever a transaction is running, some transaction can run its next update, be refused, or commit |
| Payments.Service.Charge | services/payments/app/service.py:33-128 | the gateway is asked exactly when the row is new or a matching decline, once; the row then settles by its answer; every other request answers from the row and changes nothing |
| Payments.ChargedAtMostOnce | services/payments/app/service.py:33-128 | over any interleaving in which no retry reopens a row that is not FAILED: at most one approval, at most one request holding the slot, and SUCCEEDED recorded only after the approval |
| Payments.StaleRetryChargesTwiceIff | services/payments/app/service.py:71-114 | a retry that reopens a row no longer FAILED can lead to a second approval iff one was already given, recorded or lost, or another request holds the slot |
| Payments.EveryCallIsCounted | services/payments/app/service.py:99-114 | when every retry finds the row it loaded: calls at most declines plus one, and each call is counted in attempts, still open, or lost with its process |
| Payments.OneAtATimeIsEnough | services/payments/app/service.py:33-128 | if a charge request is sent only when every earlier one for the order is over, every retry finds the row it loaded, so both conditions above hold |
| Payments.SucceededIsFinal | services/payments/app/service.py:53-61 | a recorded success never changes again in any run in which no retry reopens a row that is not FAILED |
| Payments.GatewayIsAskedForTheRow | services/payments/app/service.py:44-51 | in every run, with no condition, the recorded amount never changes and whoever holds the slot asked for exactly it, so a request for another amount never reaches the gateway |
| Payments.RefusedWithoutCalling | services/payments/app/service.py:44-70 | a request for another amount, or one that meets an attempt in progress, writes nothing and never holds the slot in any later run |
| Payments.OverlappingRetriesChargeTwice | services/payments/app/service.py:39-114 | a run in which two retries load the same declined row, the first is approved and recorded as SUCCEEDED, and the second reopens that record and is approved too |
| OrderState.OrderRow.RecordCreation | services/orders/app/state.py:77-85 | a new order is PENDING with a one-event trail |
| OrderState.OrderRow.Transition | services/orders/app/state.py:56-74 | the order moves iff the table allows it, with the event recorded and the reason copied on failure, and a lawful trail stays lawful; otherwise nothing changes |
| OrderState.TrailIsShort | services/orders/app/state.py:18-27 | a lawful trail has at most four events and enters no status twice |
| OrderState.Books.Write | services/orders/app/service.py:564-567 | a write that rolls back counts nothing; one that commits is counted once |
| OrderState.CountersAgree | services/orders/app/state.py:88-97 | over any mix of commits and rollbacks each status gauge is counted entries less counted exits, and every trail stays lawful |
| Upstream.Client.Call | services/orders/app/clients/base.py:40-94 | every call is counted once, under what came back, and ends in the payload or the classified error |
| Upstream.RefusalIsExact | services/orders/app/clients/base.py:107-126 | a reservation is refused iff the answer is a non-success below 500 whose envelope names one of the two codes; a 5xx, timeout or foreign body never refuses |
| Upstream.SagaBranchesAsClient | services/orders/app/service.py:444-460 | the saga fails an order at the reservation on exactly the inventory refusals the client classifies so |
| OrderFlow.Orders.Reserve | services/orders/app/service.py:444-464 | the order becomes RESERVED, FAILED, or stays as it is, by the answer; a move the table forbids raises and writes nothing |
| OrderFlow.Orders.Settle | services/orders/app/service.py:467-491 | a paid order is confirmed after the stock is committed, any other is failed after its release, whatever the commit or the release answers |
| OrderFlow.Orders.Fail | services/orders/app/service.py:494-514 | the release is asked for first and never stops the order from failing |
| OrderFlow.Orders.CreateOrder | services/orders/app/service.py:79-101 | a new key's order ends in the row, with the calls, and with the result the answers determine |
| OrderFlow.Orders.CancelOrder | services/orders/app/service.py:134-150 | only a confirmed order is released, and it is cancelled iff the release is accepted; otherwise nothing is written |
| OrderFlow.CompensationIsExact | services/orders/app/service.py:444-550 | for all answers: no call twice, stock before money, commit iff confirmed, release iff failed after reserving, and only a faulty reserve leaves the order unfinished |
| OrderFlow.SagaFlowIsCreateOrder | services/orders/app/service.py:79-101 | a saga flow given the same answers writes the order the service's own methods write |
| SagaSteps.ReserveHold | services/inventory/app/service.py:112-160 | a first reserve leaves the order with all its rows active or none, and is refused only for stock or an unknown SKU |
| SagaSteps.ServeReserveCall | services/orders/app/service.py:444-464 | inventory serving the flow's reserve keeps the order's invariant |
| SagaSteps.ServeChargeCall | services/payments/app/service.py:33-128 | each commit of payments on the flow's charge keeps payment, amount and gateway calls in step |
| SagaSteps.LandCommitKeeps | services/orders/app/service.py:538-550 | a commit that lands after the flow gave up on it keeps the order's invariant, whatever has been released meanwhile |
| SagaSteps.LandReserveKeeps | services/orders/app/service.py:448-460 | a reserve that lands after the flow gave up on it gives the still pending order its own rows and nothing else |
| SagaSteps.GiveUpKeeps | services/orders/app/service.py:467-515 | giving up on any call picks the branch of the code and keeps the order's invariant |
| SagaSteps.WriteKeeps | services/orders/app/service.py:444-514 | each status commit of the flow is a lawful move from the status really stored |
| SagaSteps.StaleIsQuiet | services/orders/app/service.py:183-192 | past the window no create flow of the order runs and none of its calls can still land |
| SagaSteps.LandReleaseKeeps | services/inventory/app/service.py:184-202 | a release landing at any time, any number of times, leaves the order without live rows and its invariant intact |
| SagaSteps.FaultExpiryKeeps | services/orders/app/service.py:236-243 | a failed release leaves the order for a later run, or closes it with the reason that says so |
| SagaSafety.InsertKeeps | services/orders/app/service.py:384-421 | the insert that wins its key starts exactly one flow, with no rows and no payment |
| SagaSafety.WriteCancelKeeps | services/orders/app/service.py:134-150 | a cancellation is written only on a confirmed order whose stock has come back |
| SagaSafety.TakeStepKeeps | services/orders/app/service.py:230-234 | taking the row lock and re-reading the status keeps expiry runs apart from each other and from cancellations |
| SagaSafety.StepKeeps | services/orders/app/service.py:79-247 | under the time bound (`Saga.Separated`), every step of every process keeps the invariant of all orders, tables and processes |
| SagaSafety.RunKeeps | services/orders/app/service.py:79-247 | so does every run, of any length |
| SagaAlways.StepAlways | services/orders/app/service.py:79-247 | whatever the settings, every step of every process keeps: rows tied to their order, each call sent at most once, payments in step with the flow, and stock conserved |
| SagaAlways.RunAlways | services/orders/app/service.py:79-247 | so does every run, of any length |
| SagaLawful.EveryWriteIsAllowed | services/orders/app/state.py:18-27 | when the window covers the longest flow, every step leaves each order unchanged or moved once along the table from its stored status, with key, items and total kept |
| SagaLawful.WritesAreLawfulIff | services/orders/app/config.py:16-22 | no run ever breaks the status table iff the window covers the longest flow |
| SagaLawful.ClosedForEver | services/orders/app/state.py:24-26 | with such a window, over any run no order is lost or rewritten, trails only grow, and FAILED, EXPIRED and CANCELLED are never left |
| SagaLawful.TrailsAreLawful | services/orders/app/service.py:222-247 | with such a window, in every reachable state each trail is lawful with at most four events and no status twice, so no order is expired twice by overlapping runs |
| SagaTheorems.ChargedOnce | services/orders/app/service.py:86-101 | for any settings, number of requests, crashes and lost answers: one order per key, only its creator ever runs its flow, at most one reserve call, one charge call and one gateway call, and a confirmed order has a succeeded payment for exactly its total |
| SagaTheorems.PaidYetFailed | services/orders/app/service.py:250-262 | for any settings, a FAILED order whose payment succeeded failed because its charge call ended in a fault, never because it was declined or refused its stock |
| SagaTheorems.AnswersOwnOrder | services/orders/app/service.py:344-381 | a request answered with an order gets the one with its own key, address and items, and under the time bound a finished one |
| SagaTheorems.ExpiryNeverMeetsAFlow | services/orders/app/config.py:16-22 | when the window covers the longest flow, an expiry run holds only orders no flow or cancellation works on and no other run holds; when it covers landing too, none a late call can reach |
| SagaTheorems.DefaultsAreSeparated | services/orders/app/config.py:33-40 | the shipped timeouts satisfy the bound for every window the settings accept, with 53 seconds to spare for landing and local time |
| SagaTheorems.OneReservation | services/orders/app/service.py:444-464 | for any settings an order never holds two reservations: no rows, or one per line in one status |
| SagaTheorems.StockIsConserved | services/inventory/app/service.py:92-202 | for any settings, in every reachable state stock is not negative, and stock plus the items of orders with live rows equals supply, per SKU |
| SagaTheorems.SettledStock | services/orders/app/service.py:444-550 | under the time bound, when all orders are finished and no release was lost or ordered by hand, stock plus units on confirmed orders equals supply |
| SagaTheorems.StrandedStock | services/orders/app/service.py:494-535 | under the time bound, short of a crash a failed or expired order has live rows only if its last release was reported failed, all active; one expired with the plain reason and a cancelled one have none |
| SagaTiming.RunsArePunctual | services/orders/app/service.py:444-491 | in every run, with no condition on the settings, a flow is never past its deadline and an expiry run looks only at stale orders |
| SagaTiming.MeetsOnlyIfTooShort | services/orders/app/config.py:14-22 | some run lets expiry hold an order whose flow is still running iff the window is shorter than the longest flow |
| SagaTiming.ShortWindowReopens | services/orders/app/config.py:16-22 | with any shorter window a run writes CONFIRMED over EXPIRED while all the stock is back on the shelf |
| SagaCosts.PaidAndExpiredIff | services/orders/app/service.py:180-247 | some run expires an order that is paid and whose flow never crashed iff the window is shorter than the longest flow |
| SagaCosts.StrandedUnsaidIff | services/orders/app/service.py:236-247 | some run leaves an order holding stock although it expired with the plain reason iff the window is shorter than one reserve call and its landing delay |
| Expiry.Job.ExpireOne | services/orders/app/service.py:214-247 | the order is closed iff it is unlocked, unfinished, its commit goes through, and its release was accepted or it is past the giving-up age; otherwise the row is untouched |
| Expiry.Job.ExpireStale | services/orders/app/service.py:180-211 | one run closes exactly the picked orders that can be closed, whatever fails in between, and returns their number |
| Expiry.BatchIsExact | services/orders/app/service.py:187-192 | the batch holds stale orders only, oldest first, and leaves one out only when it is full of older ones |
| Expiry.RunShrinks | services/orders/app/service.py:180-211 | one able run finishes the backlog or closes two hundred orders of it |
| Expiry.RunClosesAtMostABatch | services/orders/app/service.py:55-57 | and no run closes more |
| Expiry.BacklogClears | services/orders/app/service.py:55-62 | a backlog of n orders is cleared in ceil(n/200) runs while orders keep arriving, if releases are accepted, or whatever they do once all are past the giving-up age |
| ReconcileStock.FindStranded | tools/reconcile_stock.py:32-47 | the loop lists, in order, the active rows whose order is missing or finished, with that status |
| ReconcileStock.ReportIsExact | tools/reconcile_stock.py:29-47 | a row is in the report iff it is active and its order is missing or in one of the four terminal statuses |
| ReconcileStock.BySku | tools/reconcile_stock.py:71-73 | the totals have exactly the reported SKUs, each with the sum of its rows |
| ReconcileStock.ReleaseOrders | tools/reconcile_stock.py:79-87 | the release loop releases each order once in any order, stops at the first refused call, and leaves the tables of having released just those |
| ReconcileStock.RepairIsExact | tools/reconcile_stock.py:55-91 | a full release returns per SKU exactly the units printed, leaves nothing stranded and changes no other row |
| ReconcileStock.RepairCompletes | tools/reconcile_stock.py:79-87 | under the time bound, once all orders are finished and none crashed, after a repair every unit supplied is on the shelf or on a committed row of a confirmed order |
| ProductCache.Cache.Read | services/inventory/app/cache.py:60-74 | a failed read, a missing key and an undecodable value all read as nothing, and the last is dropped |
| ProductCache.Cache.Invalidate | services/inventory/app/cache.py:52-54 | the product and the list go together, or, on a redis failure, stay |
| ProductCache.InvalidationRestores | services/inventory/app/api/reservations.py:72-74 | dropping the products a commit changed, and the list if there were any, makes cache and table agree again |
| ProductCache.LostDeleteIsSeen | services/inventory/app/cache.py:86-90 | an entry left by a lost delete answers with the old stock |
| ProductCache.WriteTouches | services/inventory/app/api/reservations.py:37-69 | the rows a request answers with name every product it changed |
| ProductCache.Api.GetProduct | services/inventory/app/service.py:36-43 | hit, miss or redis failure, the answer is the one the table gives, and the cache still agrees with it |
| ProductCache.Api.ListProducts | services/inventory/app/api/products.py:12-22 | the answer is the catalogue in SKU order, cut to the limit, cached or not |
| ProductCache.Api.CreateProduct | services/inventory/app/api/products.py:37-47 | the product is stored or refused, and after the invalidation the cache agrees with the table |
| ProductCache.Api.AdjustStock | services/inventory/app/api/products.py:51-60 | the adjustment is applied or refused, and after the invalidation the cache agrees with the table |
| ProductCache.Api.CreateReservation | services/inventory/app/api/reservations.py:37-45 | the reservation is the inventory service's, and the invalidations restore agreement |
| ProductCache.Api.CommitReservation | services/inventory/app/api/reservations.py:51-57 | committing drops no key and needs none dropped |
| ProductCache.Api.ReleaseReservation | services/inventory/app/api/reservations.py:61-69 | the release is the inventory service's, and the invalidations restore agreement |
| Staleness.JitteredTtl | services/inventory/app/cache.py:82-84 | the ttl written is at least 1, within a fifth of the setting, and at most 360 seconds under the cap |
| Staleness.AnswersAreRecent | services/inventory/app/cache.py:60-90 | with any interleaving and any invalidations lost, a cached answer at time t was the committed row at some time later than t - (ttl + ttl/5) - the time its reader sat on it |
| Staleness.BoundIsSharp | services/inventory/app/cache.py:76-84 | for every ttl and delay a run meets that bound to the unit |
| LogTail.ReadRecords | common/common/logsearch.py:86-122 | the loops over files and lines return the records and the malformed count of every line from the start point on |
| LogTail.TailIsSuffix | common/common/logsearch.py:107-122 | per file, for any content and tail size, the bounded records are a suffix of the full ones and malformed lines are no more |
| LogTail.TailReachesBack | common/common/logsearch.py:110-113 | every line starting after the first newline at or past the seek point is in the bounded read |
| LogTail.WholeOnlyIfItFits | common/common/logsearch.py:97 | a bounded read passes over no line iff the file fits, and a whole line starting right at the seek point is passed over |
| LogTail.TailOfEveryFile | common/common/logsearch.py:105-122 | over a directory the bounded read is the full read with some records left out, in the same order |
| EnvFile.DotEnv.SetEnvValues | tools/chaos.py:201-215 | the loops replace each key's first assignment or append one, and hand back each key's earlier value or the absent marker |
| EnvFile.DotEnv.RestoreEnvValues | tools/chaos.py:218-226 | every line about a backed-up key is replaced by its earlier value or dropped |
| EnvFile.EditForgotten | tools/chaos.py:201-226 | the undo does to the edited file what it would do to the original |
| EnvFile.UndoneExactly | tools/chaos.py:201-226 | set then restore gives back the original lines in order iff the file is not empty and every line about a changed key repeats that key's first assignment, not to the marker |
| EnvFile.BareKeyIsLost | tools/chaos.py:220-225 | set then restore does not give back a file where a changed key stands alone on its line |
| EnvFile.SecondValueIsLost | tools/chaos.py:206-210 | nor one where a changed key is set twice to different values |
| IncidentIndex.IndexFile.AppendIndexRow | tools/chaos.py:551-564 | the row goes in at the end of the table; a file without a header rule fails and is not written |
| IncidentIndex.SlotIsTableEnd | tools/chaos.py:559-562 | that place is below the first header rule and all rows that follow it, and above the first other line |
| IncidentIndex.IndexRows | services/support/app/service.py:267-284 | the loop yields the last row per id among lines that are rows with at least eight cells |
| IncidentIndex.RowReadsBack | services/support/app/service.py:274-283 | a written row splits back into its id, trimmed severity, times, hints and score |
| IncidentIndex.NumberReadsBack | services/support/app/service.py:320-327 | a number is read back iff it is not negative |
| IncidentIndex.NumbersReadBack | services/support/app/service.py:247-249 | so the times and hints shown for a written row are those written, each iff it is not negative |
| IncidentIndex.AppendReadsBack | tools/chaos.py:533-564 | after an append every other row reads as before, the new one reads as written unless a row below the table has its id, and the closed set grows by exactly that id |

## Left out

Assumptions the code does not guard itself, stated in the model:

- Requests to inventory for one order id do not overlap: reserve and release read an order's rows without a lock (services/inventory/app/service.py:103-110, 186-198). Different orders interleave per statement in `RowLocks`.
- Payments.ChargedAtMostOnce: under the condition that no retry reopens a row that is not FAILED, which the code does not check; `Payments.StaleRetryChargesTwiceIff` is what happens without it.
- Payments.EveryCallIsCounted: under the stronger condition that the row is unchanged since it was loaded, because `attempts` is written from the loaded copy.
- One cancellation at a time per order: two would both write from a loaded copy.
- A call its caller gave up on lands, if at all, within a fixed delay after the timeout; releases given up on may land at any time and any number of times.
- A caller spends at most a fixed local time between two calls.
- A timeout bounds the call as a whole. The setting goes to the HTTP client as one number that bounds connecting, writing, reading and waiting for the pool separately (services/orders/app/clients/base.py:32-37), so the timeouts of the model are the longest waits those four add up to.
- The repair tool asks for statuses in one snapshot; it also releases active rows of confirmed orders, so `SettledStock` excludes orders whose release was ordered by hand.

Not modelled:

- OrderState.Books.Write: committing and counting are one step, so a process that dies between them, leaving a committed move uncounted (services/orders/app/service.py:566-567), is not represented.
- A crash of an expiry run is its abort step; a crash between a service's own commits is a lost call. Committed rows of an order expired after its flow crashed are recorded but not repaired.
- 32-bit overflow of stock and amounts, which the database refuses.
- The catalogue price on an order is an arbitrary total; price and total are not recomputed.
- `updated_at`, ids and names other than a product's name and price in the cached payload.
- The simulated gateway's randomness and delays: an arbitrary approval or decline.
- `send_confirmation` and the daily report.
- `reconcile_payment_mismatches` looks only at orders failed with the timeout message; every fault of the charge call is one reason here, `PaymentFault`.
- Upstream.RefusalIsExact: message fallback treats only a missing, null or empty message as absent, not 0, false or empty containers; messages are not branched on.
- `sort_records`, `build_trace`, `group_errors` and `rank_slow` of the log tools: stable sorts and groupings.
- Line separators other than a newline, and Unicode spaces and digits, in the two text formats; a line break inside a value or a field.
- `apply_patches` and its reverse.
- HTTP routing, validation, transport, Celery, metrics exposition, logging and migrations.
