# Flash-mall: a verified model of its stateful cores

The project models the parts of the shop whose correctness depends on several stores, indexes or steps staying in
agreement, and proves what each of them is for.

**Inventory** (`app/inventory/repository`). Stock of a product lives in Redis shards with a reserved counter, and in
MySQL buckets with a deduct/revert log and a reservation ledger. Every Lua script is one atomic function on the value
`RedisScripts.Redis`, every MySQL transaction one atomic function on `StockPersistence.Db`; the classes `RedisStore`,
`MySqlStore` and `Repository` update their fields in place, with the source's loops and early exits, and are proved
equal to those functions. `StockCommands.StepCmd` cuts each command into its atomic steps. `Engine` runs any number of
commands and reapers interleaved step by step, each step possibly failing before or after it took effect, each process
possibly dying. `NoOverlap` has no two commands at once on one order, in every configuration. `Quiescence` adds that
final deduct is on, the ledger is enforced, and what stopped is retried or released; `Rebuild` and `Restart` take any
run, with final deduct on and the ledger enforced, through a loss of Redis and on.

**Sessions** (`app/auth/api/internal/authstore`). `SessionStore` holds the three mutually dependent indexes and the
shared state that another service validates against; writes to that state may each fail silently (`Writes` says which
took effect). Hashing, signing, random bytes and time are parameters.

**Two-level cache, promotion windows, refunds.** A request to the cache is a machine of atomic steps that interleaves
with others; promotion requests are served one after another; order and refund transactions interleave freely, a
request acting on a status it read earlier.

## What holds, and what does not

- Main results: `Engine.NoOversell`, `Engine.TwoStoreConservation`, `Engine.NoLostReservation`,
  `NoOverlap.SerialConservation`, `NoOverlap.BalanceIsExact`, `Retry.RetryConverges`, `Rebuild.RebuildTheorem`,
  `Rebuild.SurvivorIff`, `Restart.RecoverySucceedsIff`, `Restart.RestartedInSync`, `Restart.RunsGoOn`,
  `RuntimeRecovery.SubtractCharacterised`, `ReaperRuns.AtMostThreeFailures`, `Reconcile.ReconcileIsIdempotent`,
  `MemoryRuns.RunRefines`, `SessionRuns.RunKeeps`, `SessionRuns.RedeemedOnce`, `SessionValidator.RevocationIsForEver`,
  `CacheCoordinator.StalenessBound`, `CacheCoordinator.FirstLevelOverRuns`, `Promotion.AtMostOnePrice`,
  `Refund.OneOpenRefund`, `Refund.AuditSettles`, `RefundLaws.RefundedIffPaidBack`, `RefundLaws.LogIsHistory`.
- What single calls do to single cells, and what their callers get, independently of how the functions compute it:
  `Cells` and `Calls` for the scripts, the transactions and the commands (`Calls.LifeIsUndone`: a reserve, confirmed
  and released, leaves every shard and every bucket as it was), `ReaperLaws.ReapedAreReleased` for the reaper,
  `RecoveryLaws` for recovery, `SessionLaws` for logins, refreshes, logouts and passwords
  (`SessionLaws.LogoutIsForEver`), `CacheLaws` for where a cached value comes from (`CacheLaws.OriginIsLoaded`) and
  what becomes of it (`CacheLaws.LifeOfAValue`), `PromotionLaws` and `RefundLaws` for what is accepted, refused and
  written.
- A zero adjust of a product whose shards are all empty falls through the drain loop to the refusal code, while the
  memory repository accepts it. `RedisScripts.AdjustEffect` and `Memory.AdjustRefines` give the exact condition
  (`Idle`). Only the repository itself shows this: the service rejects a zero delta before it gets there
  (app/inventory/service/service.go:95).
- Redis releases a confirmed order and gives its stock back; memory does nothing. `Memory.ReleaseRefines` is an
  if-and-only-if on the status. Reserve may refuse what only several shards together hold: `Memory.ReserveRefines`, and
  `MemoryRuns.RunRefines` lets exactly those reserves differ over a run.
- An order that was reserved in Redis, never reached the ledger and was released, and is then reserved again, ends
  released in Redis and reserved in the ledger: `Quiescence.ReserveAgain` says exactly when, and
  `Quiescence.ForgottenIsReached` that it happens.
- A confirm ignores an error of its first read. It then always returns success, and does all that a confirm does exactly
  when it owed neither a deduction nor a ledger transition (`Retry.ConfirmAfterFailedRead`); a later confirm that reads
  properly makes up for what was skipped (`Retry.MisreadOnce`, `Retry.RetryConverges`).
- A reconcile reports MySQL's total, while a read returns available plus reserved; they agree exactly when the reserved
  quantity called for does not exceed MySQL's total (`Reconcile.ReconcileIsIdempotent`). An adjust that MySQL takes and
  Redis refuses leads to a state where they differ (`Reconcile.TotalsPart`).
- Recovery does not always bring back the Redis that was lost. `Rebuild.RebuildTheorem` says exactly when it does,
  after any interleaving: the tables tell every order (`Agrees`), and no product's MySQL total is ahead of Redis or
  behind it. Two runs with nothing left in flight end outside: a release that runs between the script and the
  deduction of a confirm, after which stock is missing (`Unrestored.OvertakenIsNotRestored`), and a confirm whose
  first read fails, after which the order is reserved again (`Unrestored.MisreadIsUnconfirmed`).
- Recovery does not always succeed. `Restart.RecoverySucceedsIff` says exactly when, after any interleaving.
  Deductions come out of any bucket that holds the quantity, so it can refuse a healthy state
  (`RecoveryUnderflow.HealthyButFails`); and a confirm that follows a release which stopped before the ledger leaves a
  confirmed row without a deduction, which it refuses too (`Unrestored.StoppedReleaseReached`).
- The service recovers at every start (app/inventory/kitex/main.go:74), also over a Redis that nothing happened to.
  `Rebuild.RecoveryOverwrites` says what it keeps and what it overwrites, `Rebuild.SurvivorIff` exactly when that
  changes nothing that matters.
- Recovery does not bring back released orders. Whatever came before, runs go on after it (`Restart.RunsGoOn`), with
  MySQL's totals as what there is to sell, as long as they do not come back to an order that it forgot: reserving an
  order that Redis does not know starts it afresh exactly when the tables do not know it either
  (`Restart.ReserveAfterRestart`); one that had been deducted and reverted is then confirmed with success and no
  deduction (`Restart.ForgottenOrderReused`).
- Seeding a product in the middle of a run keeps the invariant exactly when nothing of it is reserved, reconciling it
  exactly when it changes nothing or calls for what is reserved (`Reconcile.SeedKeepsIff`,
  `Reconcile.ReconcileKeepsIff`).
- Saving a session writes its own version as the user's current one, so refreshing a session that an activation left at
  an old version puts the old version back (`SessionValidator.SavingSetsTheVersion`,
  `SessionValidator.OldVersionReturns`).
- A refresh token is not unique as text: leading zeros and a plus sign in the generation are accepted
  (`RefreshToken.ParseCharacterised`, `TokenLaws.OtherSpellings`).
- The first-level cache uses the empty key as "nothing found" in its eviction scan: `LocalCache.SetOverflowsIff` says
  exactly when it can grow past its maximum, `LocalCache.OverflowReached` that it can.
- The age of a cached answer counts from the moment its value was stored. A request that joined another's load gets what
  that load stored, and the load may have begun before the request did: `CacheCoordinator.StalenessBound` bounds the age
  by where the answer came from, for those who waited by the operation timeout.
- The conflict check of a promotion and its insert are separate statements: `Promotion.RacingCreates` says exactly when
  two creates that raced keep the windows apart, `Promotion.RaceReached` shows two that do not.

`dafny verify dfyconfig.toml` checks the whole project. Inventory quantities and versions are unbounded integers.

## Model

| member | source | states |
|---|---|---|
| Shards.SplitStockAcrossShards | app/inventory/repository/shard.go:33-48 | The filled array is the split of the clamped total |
| Shards.SplitSumsBack | app/inventory/repository/shard.go:33-48 | Splitting loses nothing: shards are non-negative, sum back to the clamped total, and differ only in the first, by less than their number |
| Shards.NormalizeShardCount | app/inventory/repository/shard.go:8-13 | The count is positive and a positive configuration is kept |
| Shards.StartIndex | app/inventory/repository/shard.go:24-31 | The start shard of an order is in range |
| Cells.StartIndexCycles | app/inventory/repository/shard.go:24-31 | Consecutive checksums start at consecutive shards, round and round |
| Shards.FirstFitComplete | app/inventory/repository/redis_scripts.go:95-140 | The circular reserve scan refuses exactly when no single shard holds the whole quantity, and otherwise lands on one that does |
| Shards.FirstFitFrom | app/inventory/repository/redis_scripts.go:113-134 | The scan takes the first fitting shard in circular order |
| Shards.DrainExact | app/inventory/repository/redis_scripts.go:60-93 | With non-negative shards holding the amount, the circular drain takes exactly the amount and never underflows a shard; the final refusal is unreachable |
| Shards.DrainGreedy | app/inventory/repository/redis_scripts.go:76-92 | The drain empties shards in scan order: after a shard that keeps stock, nothing is touched |
| RedisScripts.AdjustEffect | app/inventory/repository/redis_scripts.go:60-93 | An adjust moves the shard sum by exactly delta and keeps shards non-negative, or changes no cell; exact condition of refusal |
| RedisScripts.RedisStore.ReserveStock | app/inventory/repository/redis_scripts.go:95-140 | The scan loop yields the reserve script's state and code, on every branch |
| RedisScripts.RedisStore.ConfirmDeduct | app/inventory/repository/redis_scripts.go:142-183 | The new state and code are those of the confirm script |
| RedisScripts.RedisStore.MarkDeducted | app/inventory/repository/redis_scripts.go:185-193 | The deducted flag of a known order is set, nothing else |
| RedisScripts.RedisStore.GetReservation | app/inventory/repository/redis_scripts.go:195-204 | Identity of the reservation, zeros when missing |
| RedisScripts.RedisStore.Hydrate | app/inventory/repository/redis_scripts.go:206-221 | A missing hash is written, an existing one kept |
| RedisScripts.RedisStore.ReleaseStock | app/inventory/repository/redis_scripts.go:265-298 | The new state is that of the release script: stock back to its shard, counter lowered only for reserved orders |
| RedisScripts.RedisStore.AdjustAvailable | app/inventory/repository/redis_scripts.go:60-93 | The drain loop yields the adjust script's state and code |
| RedisScripts.RedisStore.SumStock | app/inventory/repository/redis_scripts.go:15-26 | Whether any shard key exists, and the sum of those that do |
| RedisScripts.RedisStore.SeedStock | app/inventory/repository/redis_scripts.go:3-8 | Every shard key is set to its value |
| RedisScripts.RedisStore.ResetReserved | app/inventory/repository/redis_scripts.go:10-13 | The reserved counter is set |
| Cells.ReserveTakesOneShard | app/inventory/repository/redis_scripts.go:95-140 | A new order that is accepted takes its whole quantity out of the first shard in scan order that holds it, which its hash names; otherwise nothing changes and the code tells no shard from too little |
| Cells.ReserveKnown | app/inventory/repository/redis_scripts.go:101-110 | A known order is accepted again for the same request, a conflict for another, and nothing changes |
| Cells.ReserveStartsClock | app/inventory/repository/redis_scripts.go:126-131 | A reserved order is due a day later and other orders keep their times |
| Cells.ConfirmTakesOffCounter | app/inventory/repository/redis_scripts.go:142-183 | A confirm takes the reserved quantity off the counter and the order off the clock; no shard and no other order changes |
| Cells.ReleasePutsBack | app/inventory/repository/redis_scripts.go:265-298 | A release puts the quantity back on the shard that the hash names and nowhere else, and off the counter only if it was reserved |
| Cells.ReserveIsUndone | app/inventory/repository/redis_scripts.go:95-298 | Reserve and release, with a confirm in between or not, leave every shard and every counter as it was |
| Cells.AdjustCredits | app/inventory/repository/redis_scripts.go:60-75 | A positive adjust moves the one shard it names |
| Cells.AdjustDrains | app/inventory/repository/redis_scripts.go:76-92 | A negative adjust empties the shards from the one it names on, in scan order |
| StockPersistence.PickBucket | app/inventory/repository/stock_persistence.go:357-384 | The preferred bucket if it holds the quantity, otherwise the lowest that does; none exactly when no single bucket does |
| StockPersistence.DeductEffect | app/inventory/repository/stock_persistence.go:278-318 | A deduction happens once per order, takes the whole quantity from one bucket, and succeeds exactly when already logged or some bucket holds it |
| StockPersistence.RevertEffect | app/inventory/repository/stock_persistence.go:320-355 | A revert gives back exactly once what was deducted |
| StockPersistence.AdjustTxEffect | app/inventory/repository/stock_persistence.go:127-179 | The bucket total moves by exactly delta or not at all, and buckets stay non-negative |
| StockPersistence.MySqlStore.ConfirmDeduct | app/inventory/repository/stock_persistence.go:278-318 | The tables and the outcome are those of the deduct transaction |
| StockPersistence.MySqlStore.ReleaseDeduct | app/inventory/repository/stock_persistence.go:320-355 | The tables are those of the revert transaction |
| StockPersistence.MySqlStore.AdjustStock | app/inventory/repository/stock_persistence.go:127-179 | The tables and the outcome are those of the adjust transaction |
| StockPersistence.MySqlStore.SeedStock | app/inventory/repository/stock_persistence.go:106-125 | Every bucket is set to its value |
| StockPersistence.MySqlStore.Total | app/inventory/repository/stock_persistence.go:94-104 | The sum of the buckets, and whether there are any |
| StockPersistence.MySqlStore.ActiveReservationTotal | app/inventory/repository/reservation_ledger.go:143-158 | The sum of the reserved ledger rows of a product, zero with the ledger off |
| StockPersistence.MySqlStore.InsertReservation | app/inventory/repository/reservation_ledger.go:36-81 | Insert keeps the first row; a different row is a conflict in enforce mode and ignored in shadow mode |
| StockPersistence.MySqlStore.TransitionReservation | app/inventory/repository/reservation_ledger.go:83-105 | Only a row in an allowed status moves to the target |
| Cells.DeductTakesOneBucket | app/inventory/repository/stock_persistence.go:278-318 | A first deduction comes out of the one bucket that the log then names, preferred or lowest; it fails exactly when none holds the quantity |
| Cells.RevertPutsBack | app/inventory/repository/stock_persistence.go:320-355 | A first revert puts the quantity back into the bucket in the log and into no other |
| Cells.RevertOnce | app/inventory/repository/stock_persistence.go:320-355 | Without a deduction, or after one revert, nothing changes |
| Cells.DeductIsUndone | app/inventory/repository/stock_persistence.go:278-355 | A deduction and its revert leave every bucket of every product as it was |
| Cells.AdjustMovesOneBucket | app/inventory/repository/stock_persistence.go:127-179 | An adjust moves the one bucket it names, under the exact condition, or changes nothing |
| StockCommands.Repository.GetStock | app/inventory/repository/stock_commands.go:12-35 | Redis when a shard key exists, otherwise the MySQL buckets, otherwise nothing |
| StockCommands.Repository.SeedStock | app/inventory/repository/stock_commands.go:66-79 | Both stores hold the split total |
| StockCommands.Repository.ReserveStock | app/inventory/repository/stock_commands.go:109-147 | The method is the step machine run without interruption |
| StockCommands.Repository.ConfirmDeduct | app/inventory/repository/stock_commands.go:149-185 | The method is the step machine run without interruption |
| StockCommands.Repository.ReleaseStock | app/inventory/repository/stock_commands.go:187-226 | The method is the step machine run without interruption, also when the order is only in the ledger |
| StockCommands.Repository.AdjustStock | app/inventory/repository/stock_commands.go:81-107 | MySQL first, then Redis, with the step machine's outcome |
| StockCommands.Repository.ReconcileStock | app/inventory/repository/stock_commands.go:228-263 | The reported result and the new stores in all three ledger modes |
| Calls.ReserveNew | app/inventory/repository/stock_commands.go:109-147 | A new order: refused with its reason and no change, or one shard, the counter, the hash and a ledger row that says what the hash says |
| Calls.ReserveKnownCall | app/inventory/repository/stock_commands.go:109-147 | A known order: the same request succeeds unless an enforced ledger disagrees, another is a conflict; Redis does not change |
| Calls.ConfirmCall | app/inventory/repository/stock_commands.go:149-185 | Which answer a confirm gives when, and what it does to the counter, the hash, one bucket and the ledger row |
| Calls.ConfirmUnknown | app/inventory/repository/stock_commands.go:149-185 | Confirming an order that Redis does not know, or has released |
| Calls.ReleaseCall | app/inventory/repository/stock_commands.go:187-226 | A release puts stock back on its shard, and what was deducted back into its bucket, and moves the ledger row |
| Calls.ReleaseUnknown | app/inventory/repository/stock_commands.go:187-226 | An order only in the ledger is written back to Redis as its row says, and released from there |
| Calls.ReleaseNothing | app/inventory/repository/stock_commands.go:187-226 | An order that neither store has live is released with success and no change |
| Calls.AdjustCall | app/inventory/repository/stock_commands.go:81-107 | Which answer an adjust gives when: the bucket it names moves first, then the shards |
| Calls.StockIsRead | app/inventory/repository/stock_commands.go:12-79 | After a seed both stores have the total, and a read gives it back |
| Calls.SeedSplits | app/inventory/repository/stock_commands.go:66-79 | A seed puts the same quantities on the shards and in the buckets, together the total, zeroes the counter and touches no order and no other product |
| Calls.LifeIsUndone | app/inventory/repository/stock_commands.go:109-226 | A reserve, confirmed and then released, leaves every shard, every counter and every bucket as it was |
| Engine.NoOversell | app/inventory/repository/redis_scripts.go:60-183 | After any interleaving every shard is non-negative, the counter is exactly the reserved quantities, and shards plus reserved and confirmed quantities are what was seeded and adjusted |
| Engine.TwoStoreConservation | app/inventory/repository/stock_commands.go:149-226 | After any interleaving MySQL minus Redis is exactly the gap of half-done orders plus the adjusts Redis lacks |
| Engine.NoLostReservation | app/inventory/repository/reservation_reaper.go:97-133 | With any number of reapers, failures and deaths, every reserved order is in the expiry, processing or dead-letter set |
| Engine.RunKeeps | app/inventory/repository/stock_commands.go:81-226 | The store and process invariant holds in every reachable state |
| Engine.SeedingIsInitial | app/inventory/repository/stock_commands.go:66-79 | Seeding products makes a state from which the invariant starts |
| Engine.EmptyIsInitial | app/inventory/repository/stock_commands.go:66-79 | Empty stores are such a state, whatever products the catalogue lists |
| NoOverlap.RunApartKeeps | app/inventory/repository/stock_commands.go:149-226 | Without overlap on an order, in any configuration and with any failures, a released order has no live deduction, only confirmed orders get one, and none does without final deduct |
| NoOverlap.SerialConservation | app/inventory/repository/stock_commands.go:149-226 | Without overlap on an order, in any configuration and with any failures, MySQL never falls behind Redis except by an adjust |
| NoOverlap.BalanceIsExact | app/inventory/repository/stock_commands.go:149-226 | Without overlap the stores agree on a product exactly when each of its confirmed orders is deducted and each released one is not |
| Quiescence.RunSerialKeeps | app/inventory/repository/stock_commands.go:109-226 | With final deduct, an enforced ledger, no overlap and what stopped retried or released, each order is settled, being worked on, or as its stopped command left it |
| Quiescence.QuiescentBalance | app/inventory/repository/stock_commands.go:149-226 | In the same runs, with nothing in flight or left to retry, the stores agree on every product up to adjusts that Redis lacks |
| Quiescence.ReserveAgain | app/inventory/repository/stock_commands.go:109-147 | Reserving a settled order again keeps it settled exactly when it is not a released order unknown to the ledger |
| Quiescence.ForgottenIsReached | app/inventory/repository/stock_commands.go:109-226 | A reserve that stopped after its script, a release and a reserve again end released in Redis and reserved in the ledger |
| Retry.ConfirmAfterFailedRead | app/inventory/repository/stock_commands.go:149-185 | A confirm whose first read fails returns success always, and does what a confirm does exactly when it owed neither a deduction nor a ledger transition |
| Retry.MisreadOnce | app/inventory/repository/stock_commands.go:149-185 | Wherever a confirm with a failed first read stopped, a confirm that reads properly ends as if it had not happened |
| Retry.RetryConverges | app/inventory/repository/stock_commands.go:149-226 | However often, whenever and wherever attempts at a confirm or release stopped, with or without a failed first read, one more run gives the state and outcome of one uninterrupted run |
| Retry.ReserveConverges | app/inventory/repository/stock_commands.go:109-147 | The same for a reserve, up to the expiry times |
| Retry.RerunChangesNothing | app/inventory/repository/stock_commands.go:109-226 | A finished reserve, confirm or release run again at any time changes nothing and answers the same |
| ReservationReaper.ClaimExpired | app/inventory/repository/reservation_reaper.go:97-112 | The claim is the earliest due orders up to the limit, moved to the processing set after abandoned ones are requeued |
| ReservationReaper.CompleteExpired | app/inventory/repository/reservation_reaper.go:114-118 | The order leaves the processing set and the retry counts |
| ReservationReaper.RetryExpired | app/inventory/repository/reservation_reaper.go:120-133 | One more attempt: back to the expiry set with a delay, or to the dead letters |
| ReservationReaper.ReleaseExpiredReservations | app/inventory/repository/reservation_reaper.go:21-53 | Each claimed order is released in turn, then completed or put up for retry |
| ReservationReaper.ReleaseReturnsOk | app/inventory/repository/reservation_reaper.go:34-46 | With working stores a release succeeds and leaves the order released |
| ReaperLaws.ReaperIsEngineRun | app/inventory/repository/reservation_reaper.go:21-53 | With working stores a call of the reaper is a reaper of the engine from its claim to its end, and every claimed order counts as processed |
| ReaperLaws.ReapedAreReleased | app/inventory/repository/reservation_reaper.go:21-53 | In any reachable state: every claimed order ends released and out of the expiry, processing and retry sets, what they held is back on the shards and off the counter, and no other order changes |
| ReaperLaws.AbandonedIsDue | app/inventory/repository/reservation_reaper.go:97-105 | An order whose processing time is over is due at once, and the others stay as they are |
| ReaperLaws.EarliestFirst | app/inventory/repository/reservation_reaper.go:106-110 | A claim leaves a due order behind only when it is full of orders that were due no later |
| ReaperLaws.ClaimHolds | app/inventory/repository/reservation_reaper.go:106-110 | What is claimed no other reaper can take before the processing timeout, and any can from then on |
| ReaperLaws.RetryWaits | app/inventory/repository/reservation_reaper.go:120-134 | A failed release is due again after the delay and not before; the last attempt makes a dead letter |
| ReaperRuns.AtMostThreeFailures | app/inventory/repository/reservation_reaper.go:97-133 | With one reaper at a time the three sets stay disjoint and an order fails at most three times |
| ReaperRuns.DeadIsFinal | app/inventory/repository/reservation_reaper.go:120-133 | A dead-lettered order stays there, does not fail again and is never claimed |
| RuntimeRecovery.SubtractCharacterised | app/inventory/repository/runtime_recovery.go:123-145 | The subtraction loop succeeds exactly when every row is well formed and each bucket's total demand fits; its result in closed form |
| RuntimeRecovery.OrderIrrelevant | app/inventory/repository/runtime_recovery.go:123-145 | Success and result do not depend on the row order |
| RuntimeRecovery.ChargedTotal | app/inventory/repository/runtime_recovery.go:143-144 | Available plus reserved is the bucket total |
| RuntimeRecovery.LoadRecoveryBuckets | app/inventory/repository/runtime_recovery.go:23-55 | A dense, non-negative grid of exactly the shard count per product, or failure |
| RuntimeRecovery.LoadRecoveryReservations | app/inventory/repository/runtime_recovery.go:57-105 | The live rows of the ledger, checked against the deduct log |
| RuntimeRecovery.SubtractReserved | app/inventory/repository/runtime_recovery.go:123-145 | The loop computes the subtraction |
| RuntimeRecovery.RestoreProductStock | app/inventory/repository/runtime_recovery.go:191-203 | The shards and the counter of the product are set |
| RuntimeRecovery.RestoreReservation | app/inventory/repository/runtime_recovery.go:205-234 | The hash and, for reserved orders, the expiry entry are set |
| RuntimeRecovery.RecoverRuntime | app/inventory/repository/runtime_recovery.go:107-181 | The whole recovery for some delivery order: a refused one changes nothing, one that Redis stops after any number of scripts leaves exactly what those wrote |
| RecoveryLaws.RecoveredShard | app/inventory/repository/runtime_recovery.go:123-203 | Every shard of a product gets what its bucket holds less what the ledger has reserved in it |
| RecoveryLaws.RecoveredHash | app/inventory/repository/runtime_recovery.go:57-105 | A live order gets its hash back: confirmed at the shard of the logged bucket if deducted, otherwise as its row says, due when the row says |
| RecoveryLaws.RecoveryKeepsOthers | app/inventory/repository/runtime_recovery.go:146-181 | Every other order keeps the hash it has and is in no index |
| RecoveryLaws.ReleaseAfterRecovery | app/inventory/repository/runtime_recovery.go:57-105 | A deducted order released after a recovery gives its stock back to the bucket in the log and the shard of the same index |
| RecoveryLaws.WithoutLedger | app/inventory/repository/runtime_recovery.go:57-145 | Without a ledger recovery goes through exactly when the buckets are in range and not negative, and puts what they hold on the shards |
| RecoveryLaws.ReportIsTrue | app/inventory/repository/runtime_recovery.go:107-181 | The report counts the products with buckets and the orders brought back, reserved and confirmed |
| Rebuild.RebuildTheorem | app/inventory/repository/runtime_recovery.go:107-181 | After any interleaving, wiping Redis and recovering it, also after recoveries that stopped halfway, restores shard sums, counters and exactly the live reservations if and only if the tables tell every order and gap and adjusts cancel for each product |
| Rebuild.RebuildWithoutOverlap | app/inventory/repository/runtime_recovery.go:107-181 | Without overlap on an order: if and only if the tables tell every order and every adjust reached both stores |
| Rebuild.RebuildAtRest | app/inventory/repository/runtime_recovery.go:107-181 | With what stopped retried or released, nothing in flight and every adjust in both stores, recovery restores all of it |
| Rebuild.AgreesIsLoaded | app/inventory/repository/runtime_recovery.go:57-105 | The tables tell an order exactly when recovery loads it if and as it is live in Redis |
| Rebuild.EmptyIsPartial | app/inventory/repository/runtime_recovery.go:107-181 | A wiped Redis is one to which these theorems apply |
| Rebuild.RecoveryOverwrites | app/inventory/repository/runtime_recovery.go:146-234 | Over any Redis: hashes of loaded orders, the expiry set and the stock of products with buckets are overwritten from the tables; other hashes, other products, dead letters and retry counts stay, the last two except for confirmed orders |
| Rebuild.SurvivorIff | app/inventory/repository/runtime_recovery.go:107-181 | Over the Redis that is there, recovery changes no sum, counter or live reservation if and only if what the tables load is what Redis has, and totals agree for products with buckets |
| Rebuild.StoppedIsPartial | app/inventory/repository/runtime_recovery.go:146-181 | A recovery that Redis stopped after any number of scripts leaves a Redis from which the rebuild theorem starts |
| Restart.RecoverySucceedsIff | app/inventory/repository/runtime_recovery.go:57-145 | After any interleaving recovery succeeds if and only if bucket indexes are below the shard count, no row is confirmed without a deduction, and what the tables ask of each bucket for reserved orders fits in it |
| Restart.DemandIsLive | app/inventory/repository/runtime_recovery.go:123-145 | Where the tables tell every order, that demand is what live orders hold reserved in the shard |
| Restart.RestartedInSync | app/inventory/repository/runtime_recovery.go:107-181 | Whatever came before, after a successful recovery the stores, less the records of forgotten orders, satisfy the invariant of runs and are in sync, with MySQL's totals to sell |
| Restart.SupplyStays | app/inventory/repository/runtime_recovery.go:107-181 | If the stores were in sync, the supply is what it was |
| Restart.StepFrame | app/inventory/repository/stock_commands.go:81-226 | A step on an order that was not forgotten neither sees nor touches the records of those that were |
| Restart.RunFrame | app/inventory/repository/stock_commands.go:81-226 | So does a whole run, which keeps the invariant |
| Restart.RunsGoOn | app/inventory/repository/runtime_recovery.go:107-181 | After any interleaving and a successful recovery, any interleaving that avoids forgotten orders never oversells, loses no reservation and keeps the balance between the stores |
| Restart.ForgottenIsOver | app/inventory/repository/runtime_recovery.go:57-105 | An order that recovery forgot has a released row, no row, or a deduction in the log |
| Restart.ReserveAfterRestart | app/inventory/repository/reservation_ledger.go:36-81 | After a restart, a reserve that goes through on an order unknown to Redis leaves it as a reserved order should be exactly when the restart did not forget it |
| Restart.ForgottenOrderReused | app/inventory/repository/stock_persistence.go:278-318 | A forgotten order that was deducted before is reserved and confirmed with success and no deduction |
| RecoveryUnderflow.HealthyButFails | app/inventory/repository/runtime_recovery.go:123-145 | A run of two reserves and a confirm on a seeded product ends at rest, settled and balanced, and recovery refuses |
| Unrestored.ReleaseOvertakesConfirm | app/inventory/repository/stock_commands.go:149-226 | A release between the script and the deduction of a confirm: both succeed, and the order ends released everywhere, deducted and not reverted |
| Unrestored.OvertakenIsNotRestored | app/inventory/repository/runtime_recovery.go:107-181 | Such a run is reached, and recovery after it succeeds and does not restore what was lost |
| Unrestored.MisreadIsUnconfirmed | app/inventory/repository/stock_commands.go:149-185 | A run with a misread confirm is reached after which recovery succeeds and the confirmed order is reserved again |
| Unrestored.ConfirmAfterStoppedRelease | app/inventory/repository/stock_commands.go:149-226 | A release that stopped before the ledger and a confirm that succeeds: the ledger has the order confirmed without a deduction, and every recovery refuses |
| Unrestored.StoppedReleaseReached | app/inventory/repository/runtime_recovery.go:97-100 | Such a run is reached |
| Solo.RunsAlone | app/inventory/repository/stock_commands.go:109-226 | In a run of the engine, a command left alone takes the stores where its uninterrupted run does |
| Reconcile.ReconcileIsIdempotent | app/inventory/repository/stock_commands.go:228-263 | In every ledger mode the stock read back has the reported available and reserved quantities, and the reported total exactly when the reserved quantity called for fits MySQL's total; a second reconcile changes nothing |
| Reconcile.ReconcileSettles | app/inventory/repository/reservation_ledger.go:117-141 | What is reserved after a reconcile: as before without a ledger, the larger of both figures in shadow mode, the ledger's when enforced; what MySQL has beyond that is available |
| Reconcile.TotalsPart | app/inventory/repository/stock_commands.go:81-107 | Seed, reserve and an adjust that only MySQL takes reach a state where the totals differ |
| Reconcile.ReconcileChangesNothingIff | app/inventory/repository/stock_commands.go:228-263 | After any interleaving and in every ledger mode, a reconcile changes nothing if and only if the reserved quantity called for is what Redis holds and MySQL's total is what Redis has or, with empty shards, less |
| Reconcile.ReconcileAtRest | app/inventory/repository/reservation_ledger.go:118-158 | On a quiescent, in-sync state a reconcile changes nothing |
| Reconcile.SeedKeepsIff | app/inventory/repository/stock_commands.go:66-79 | Seeding a product between the events of any run keeps the invariant, with new books, if and only if nothing of it is reserved |
| Reconcile.ReconcileKeepsIff | app/inventory/repository/stock_commands.go:228-263 | Reconciling it does so if and only if it changes nothing or calls for what Redis holds reserved |
| Memory.MemoryStockRepository.SeedStock | app/inventory/repository/memory.go:58-65 | The single pool is set to the clamped total |
| Memory.MemoryStockRepository.AdjustStock | app/inventory/repository/memory.go:67-88 | The pool moves by delta, or the refusal |
| Memory.MemoryStockRepository.ReserveStock | app/inventory/repository/memory.go:90-116 | Quantity moves from available to reserved, or the refusal |
| Memory.MemoryStockRepository.ConfirmDeduct | app/inventory/repository/memory.go:118-143 | A reserved order is confirmed and its quantity leaves reserved and total |
| Memory.MemoryStockRepository.ReleaseStock | app/inventory/repository/memory.go:145-167 | A reserved order is released and its quantity is available again |
| Memory.ReserveRefines | app/inventory/repository/memory.go:90-116 | Same answer and state as Redis, exactly unless no single shard is large enough |
| Memory.OneShardFits | app/inventory/repository/redis_scripts.go:95-140 | With one shard there is no fragmentation |
| Memory.ConfirmRefines | app/inventory/repository/memory.go:118-143 | Same state as Redis |
| Memory.ReleaseRefines | app/inventory/repository/memory.go:145-167 | Same state as Redis exactly when the order is not confirmed |
| Memory.AdjustRefines | app/inventory/repository/memory.go:67-88 | Same state as Redis, and the same answer exactly unless a zero adjust finds no stock |
| Memory.SeedRefines | app/inventory/repository/memory.go:58-65 | Same state as Redis |
| MemoryRuns.RunRefines | app/inventory/repository/memory.go:58-167 | Every run of the sharded store is a run of the memory store with the same answers, less exactly the reserves that only several shards together could hold, ending in related states |
| MemoryRuns.RunRefinesOneShard | app/inventory/repository/memory.go:58-167 | With one shard all answers agree throughout |
| MemoryRuns.EmptyRefines | app/inventory/repository/memory.go:22-27 | The empty stores are related, so the runs can start there |
| RefreshToken.ParseBuild | app/auth/api/internal/authstore/store.go:641-675 | Parsing a built token returns its id, generation and signature exactly for generations 1 to 2^63-1 |
| RefreshToken.ParseCharacterised | app/auth/api/internal/authstore/store.go:645-675 | A text parses to a token exactly when it spells it |
| RefreshToken.BuildInjective | app/auth/api/internal/authstore/store.go:641-643 | Tokens of different sessions or generations are different texts |
| RefreshToken.SignedMessageInjective | app/auth/api/internal/authstore/store.go:677-683 | One signed message stands for one session and one generation |
| RefreshToken.Base64UrlAlphabet | app/auth/api/internal/authstore/store.go:625-631 | Encoded ids and signatures are dot-free, and empty only for no bytes |
| TokenLaws.NumeralForms | app/auth/api/internal/authstore/store.go:645-675 | Digits are a generation as they stand, after a plus sign, and negated after a minus sign, within 64 bits |
| TokenLaws.NoOtherNumerals | app/auth/api/internal/authstore/store.go:645-675 | Nothing but digits after an optional sign is taken for a generation |
| TokenLaws.OtherSpellings | app/auth/api/internal/authstore/store.go:645-675 | A token with a plus sign or a further zero before its generation parses to the same |
| TokenLaws.DecodeEncode | app/auth/api/internal/authstore/store.go:677-683 | Encoded bytes decode to themselves |
| TokenLaws.SignaturesTellCodes | app/auth/api/internal/authstore/store.go:677-683 | Two signatures are the same text exactly when the authentication codes are the same bytes |
| SessionStore.SharedState.SaveSession | app/auth/api/internal/sessionstate/state.go:39-54 | Snapshot and user version are written, each if its write takes effect |
| SessionStore.SharedState.DeleteSession | app/auth/api/internal/sessionstate/state.go:56-64 | The snapshot is removed if the write takes effect |
| SessionStore.SharedState.SetUserVersion | app/auth/api/internal/sessionstate/state.go:66-73 | The version is written if the write takes effect |
| SessionStore.AuthStore.constructor | app/auth/api/internal/authstore/store.go:78-92 | An empty store with the demo users, over whatever the shared state holds |
| SessionStore.AuthStore.SeedDemoUser | app/auth/api/internal/authstore/store.go:93-135 | The two demo users, as far as their passwords hash |
| SessionStore.AuthStore.CreateUser | app/auth/api/internal/authstore/store.go:187-221 | A new user under the next id, or the error |
| SessionStore.AuthStore.Authenticate | app/auth/api/internal/authstore/store.go:223-241 | The active user whose stored hash the password matches, by phone or by id |
| SessionStore.AuthStore.SetUserStatus | app/auth/api/internal/authstore/store.go:333-357 | Any other status is refused; version up; disabling revokes every session, in any iteration order |
| SessionStore.AuthStore.CreateSessionForDevice | app/auth/api/internal/authstore/store.go:378-425 | The device's sessions are replaced by the new one in all three indexes |
| SessionStore.AuthStore.RefreshSession | app/auth/api/internal/authstore/store.go:427-465 | Rotation, replay revocation or refusal, with the whole new state |
| SessionStore.AuthStore.Logout | app/auth/api/internal/authstore/store.go:467-491 | Revocation or refusal, with the whole new state |
| SessionStore.AuthStore.LogoutAll | app/auth/api/internal/authstore/store.go:493-499 | Version up and synced, then every session revoked |
| SessionStore.AuthStore.UpdatePassword | app/auth/api/internal/authstore/store.go:501-523 | New hash, then as for logging out everywhere |
| SessionStore.AuthStore.RevokeUserSessions | app/auth/api/internal/authstore/store.go:536-542 | The loop revokes and forgets all sessions of the user |
| SessionStore.AuthStore.RevokeUserDeviceSessions | app/auth/api/internal/authstore/store.go:544-558 | The loop revokes and forgets exactly the sessions on the device |
| SessionStore.AuthStore.RevokeSession | app/auth/api/internal/authstore/store.go:569-580 | Flag, refresh index, user set and snapshot change together |
| SessionRuns.RunKeeps | app/auth/api/internal/authstore/store.go:333-580 | In every reachable state the user sets are exactly the live sessions, the refresh index exactly their token hashes, one live session per user and device, no session version above its user's |
| SessionRuns.DemoStoreInv | app/auth/api/internal/authstore/store.go:78-135 | The store starts in such a state, whatever an earlier one left in the shared state |
| SessionRuns.RandomTokenIsGoodId | app/auth/api/internal/authstore/store.go:625-631 | Random session ids are non-empty and dot-free |
| SessionRuns.RedeemedOnce | app/auth/api/internal/authstore/store.go:427-465 | Over any run no generation of a session is redeemed twice |
| SessionRuns.ReplayRevokes | app/auth/api/internal/authstore/store.go:443-452 | A redeemed token never works again, and revokes its session when presented while it lives |
| SessionRuns.RevokedFamilyIsDead | app/auth/api/internal/authstore/store.go:439-442 | After revocation no token of the family is ever accepted |
| SessionRuns.CurrentIsRedeemed | app/auth/api/internal/authstore/store.go:454-464 | The current token of a live session is redeemed for the next one |
| SessionLaws.CheckedExactly | app/auth/api/internal/authstore/store.go:427-453 | A token is current exactly if it spells the current generation of a live session under the session's secret, a replay exactly if it spells an earlier one |
| SessionLaws.ForgedIsRefused | app/auth/api/internal/authstore/store.go:443-446 | A token with another signature is refused, for refreshing and for logging out, and changes nothing |
| SessionLaws.LogoutEnds | app/auth/api/internal/authstore/store.go:467-491 | Logging out with the current token of a live session succeeds and ends it: out of the user's set, the refresh index and, if deleted, the snapshots; nothing else changes |
| SessionLaws.LogoutIsForEver | app/auth/api/internal/authstore/store.go:467-491 | After it no token of the session is accepted again in any continuation |
| SessionLaws.LogoutAllLaw | app/auth/api/internal/authstore/store.go:493-499 | Every session of the user ends and the version moves up by one; no other user or session changes |
| SessionLaws.LoginGives | app/auth/api/internal/authstore/store.go:378-425 | A login answers a token that is current exactly until the session expires, after the given time or a week |
| SessionLaws.LoginReplaces | app/auth/api/internal/authstore/store.go:544-558 | A login revokes exactly the user's live session on the device |
| SessionLaws.LoginSaves | app/auth/api/internal/authstore/store.go:398-423 | Session, snapshot and version are written at the user's version |
| SessionLaws.RefreshGives | app/auth/api/internal/authstore/store.go:454-464 | A refresh answers the next token, current until the new expiry, and makes the presented one a replay |
| SessionLaws.RefreshKeeps | app/auth/api/internal/authstore/store.go:454-464 | Owner, device and version stay, the presented token's hash becomes the previous one, and no other session changes |
| SessionLaws.BumpIsPositive | app/auth/api/internal/authstore/store.go:525-534 | The version moves up by one and is never below one |
| SessionLaws.SignUpLetsIn | app/auth/api/internal/authstore/store.go:187-241 | A new user gets in with exactly the passwords that match the hash |
| SessionLaws.SignUpOutcome | app/auth/api/internal/authstore/store.go:187-221 | Which sign-up is refused for what, without any change |
| SessionLaws.SignUpAdds | app/auth/api/internal/authstore/store.go:204-221 | One new user at version one, in the shared state too; everything else stays |
| SessionLaws.SignUpKeepsOthers | app/auth/api/internal/authstore/store.go:187-241 | Other users get in as before |
| SessionLaws.ResetChangesPassword | app/auth/api/internal/authstore/store.go:501-523 | Afterwards exactly the passwords that match the new hash let the active user in, everyone else gets in as before, and all sessions of the user are over |
| SessionLaws.ResetOutcome | app/auth/api/internal/authstore/store.go:501-523 | Which reset is refused for what, without any change |
| SessionLaws.StatusDecides | app/auth/api/internal/authstore/store.go:333-357 | Disabling ends every session of the user, activating keeps them all |
| SessionLaws.StatusLetsIn | app/auth/api/internal/authstore/store.go:223-241 | A disabled user gets in with nothing, an active one with the password of before; the version moves on |
| SessionLaws.StatusRefused | app/auth/api/internal/authstore/store.go:333-357 | Any other status or an unknown user is refused without a change |
| SessionLaws.DemoLetsIn | app/auth/api/internal/authstore/store.go:78-135 | At the start exactly the two demo users get in, as far as their passwords hashed |
| SessionValidator.Validate | app/entry/api/internal/sessionstate/validator.go:123-157 | Accepted exactly when snapshot and current version match the claims and both reads work; unavailable exactly when a needed read fails |
| SessionValidator.AcceptedExactly | app/entry/api/internal/sessionstate/validator.go:123-157 | An accepted token names a known session of its subject at the version of its snapshot and of its subject, and nothing more is needed |
| SessionValidator.SavedValidates | app/auth/api/internal/sessionstate/state.go:39-54 | After an effective save the session's token validates |
| SessionValidator.MintedNeverChanges | app/auth/api/internal/logic/auth/tokenhelper.go:17-25 | Every access token ever minted for a session carries the same subject, session and version |
| SessionValidator.LogoutAllDecides | app/auth/api/internal/authstore/store.go:493-499 | Right after logging out everywhere an earlier token validates exactly if it did before and neither write took effect |
| SessionValidator.RevocationIsForEver | app/auth/api/internal/authstore/store.go:493-499 | No earlier token validates at any later point if the version write or the snapshot deletion took effect |
| SessionValidator.ResetIsForEver | app/auth/api/internal/authstore/store.go:501-523 | The same after a password update |
| SessionValidator.DisablingIsForEver | app/auth/api/internal/authstore/store.go:333-357 | After disabling, no earlier token of the user validates at any later point; after activating none does at once |
| SessionValidator.SavingSetsTheVersion | app/auth/api/internal/sessionstate/state.go:49-53 | After an effective save another session of the user validates exactly when it has the same version |
| SessionValidator.OldVersionReturns | app/auth/api/internal/authstore/store.go:427-465 | Login, activation, login, and a refresh of the first session: the first validates again and the second no longer does |
| LocalCache.Cache.Get | app/gateway/hertz/internal/cache/l1.go:28-42 | A live entry is returned and touched, an expired one removed |
| LocalCache.Cache.Set | app/gateway/hertz/internal/cache/l1.go:44-52 | The entry is written, after an eviction if the cache is full, for some iteration order |
| LocalCache.Cache.EvictOldest | app/gateway/hertz/internal/cache/l1.go:75-87 | The scan's victim is removed |
| LocalCache.Cache.Delete | app/gateway/hertz/internal/cache/l1.go:54-60 | Exactly the named keys are removed |
| LocalCache.SetKeepsBound | app/gateway/hertz/internal/cache/l1.go:44-87 | Without the empty key: never above the maximum, only a least recently used entry goes, and the last value set is held |
| LocalCache.SetOverflowsIff | app/gateway/hertz/internal/cache/l1.go:75-87 | A full cache can grow past its maximum exactly when the empty key is its oldest entry |
| LocalCache.OverflowReached | app/gateway/hertz/internal/cache/l1.go:44-87 | In a cache of one entry, the empty key and then any other make two |
| CacheLaws.SetThenGet | app/gateway/hertz/internal/cache/l1.go:28-52 | A value set is found until it expires, and its entry is gone once looked up after that |
| CacheLaws.GetTouches | app/gateway/hertz/internal/cache/l1.go:28-42 | A lookup renews the last access of what it finds, removes what has expired, and touches no other entry |
| CacheLaws.LookedUpSurvives | app/gateway/hertz/internal/cache/l1.go:28-87 | An entry just looked up outlives an eviction while another was last used earlier |
| CacheCoordinator.NormalizedIsValid | app/gateway/hertz/internal/cache/coordinator.go:59-80 | The configuration is positive, soft before hard, and normalising is idempotent |
| CacheCoordinator.SoftBeforeHard | app/gateway/hertz/internal/cache/coordinator.go:161-162 | The jittered soft expiry never passes the hard one, and both stay within a tenth of their setting |
| CacheCoordinator.Coordinator.GetOrLoad | app/gateway/hertz/internal/cache/coordinator.go:82-135 | The answer and the new state are those of the request's steps |
| CacheCoordinator.Coordinator.ReadL2 | app/gateway/hertz/internal/cache/coordinator.go:137-153 | A live envelope, or none with the expired one deleted |
| CacheCoordinator.Coordinator.Store | app/gateway/hertz/internal/cache/coordinator.go:155-171 | Both levels get the value with its expiries |
| CacheCoordinator.StalenessBound | app/gateway/hertz/internal/cache/coordinator.go:82-213 | However requests interleave and join each other's loads, an answered value was stored before the lookup at most: jittered soft expiry plus first level's (first level), jittered soft expiry (second level), jittered hard expiry (stale), nothing (own load), the operation timeout (joined load) |
| CacheCoordinator.JoinedAge | app/gateway/hertz/internal/cache/coordinator.go:113-135 | A request that waited for another's load is answered with its value, stored at most the operation timeout before, or on failure with its own stale value |
| CacheCoordinator.AllAnswered | app/gateway/hertz/internal/cache/coordinator.go:113-135 | When a load returns, every request that waited for it is answered and gone |
| CacheCoordinator.FirstLevelOverRuns | app/gateway/hertz/internal/cache/l1.go:44-87 | Over every run without the empty key the first level holds at most its maximum, and under each key only the value set last |
| CacheLaws.StoredWasLoaded | app/gateway/hertz/internal/cache/coordinator.go:113-123 | Over any run whatever is stored was returned by the origin for that key, no later than it was stored |
| CacheLaws.AnswerWasLoaded | app/gateway/hertz/internal/cache/coordinator.go:82-135 | Every answer, from whatever source, is a value that the origin returned for the key, stored after that and recently enough for its source |
| CacheLaws.OriginIsLoaded | app/gateway/hertz/internal/cache/coordinator.go:113-135 | An answer from the origin is what it returned to the request itself since it began, or to the request whose load was joined |
| CacheLaws.FailureIsEachOnesOwn | app/gateway/hertz/internal/cache/coordinator.go:125-131 | When a joined load fails, each request that waited answers its own stale value or fails |
| CacheLaws.FirstLevelAnswers | app/gateway/hertz/internal/cache/coordinator.go:84-90 | A live first-level entry answers alone |
| CacheLaws.SecondLevelAnswers | app/gateway/hertz/internal/cache/coordinator.go:93-100 | Otherwise a fresh second-level value answers and moves up for the first level's time |
| CacheLaws.StaleAnswers | app/gateway/hertz/internal/cache/coordinator.go:101-106 | A stale one answers as such where that is configured |
| CacheLaws.OriginAnswers | app/gateway/hertz/internal/cache/coordinator.go:113-171 | Otherwise the loaded value answers and is kept in both levels with both expiries; other keys stay |
| CacheLaws.OriginFails | app/gateway/hertz/internal/cache/coordinator.go:125-131 | Without a loaded value a stale one stands in if allowed and not empty; nothing is stored |
| CacheLaws.LifeOfAValue | app/gateway/hertz/internal/cache/coordinator.go:82-171 | A kept value is answered by the first level until its expiry, then by the second until the soft expiry, then as stale until the hard one, and then the origin is asked again |
| CacheLaws.Defaults | app/gateway/hertz/internal/cache/coordinator.go:59-80 | Sensible settings are kept, the others get their defaults |
| CacheLaws.JitterSpreads | app/gateway/hertz/internal/cache/coordinator.go:206-213 | Expiries spread by thousandths of their setting, by the key's hash modulo 100 |
| Promotion.PromotionTable.CreateRule | app/entry/api/internal/handler/adminpromotionhandler.go:160-242 | Every guard in order, then the insert |
| Promotion.PromotionTable.UpdateRule | app/entry/api/internal/handler/adminpromotionhandler.go:244-449 | Every guard in order, then the patch |
| Promotion.PromotionTable.FindConflict | app/entry/api/internal/handler/adminpromotionhandler.go:738-757 | Whether an active limited-price row of the product overlaps |
| Promotion.OverlapIsSharedInstant | app/entry/api/internal/handler/adminpromotionhandler.go:747-748 | The query's comparisons hold exactly when the windows share an instant |
| Promotion.RunKeeps | app/entry/api/internal/handler/adminpromotionhandler.go:160-449 | Active limited-price windows of a product stay pairwise disjoint and well formed |
| Promotion.AtMostOnePrice | app/entry/api/job/product_card_snapshot.go:195-203 | At any instant the price aggregate of a product ranges over at most one row |
| Promotion.ConflictIsExact | app/entry/api/internal/handler/adminpromotionhandler.go:738-757 | A valid window is refused exactly when some instant would get two prices |
| Promotion.RacingCreates | app/entry/api/internal/handler/adminpromotionhandler.go:213-229 | Two creates checked on the same table keep the windows apart exactly when theirs do not overlap |
| Promotion.RaceReached | app/entry/api/internal/handler/adminpromotionhandler.go:213-229 | Two unbounded creates racing on the empty table give a product two prices at every instant |
| PromotionLaws.CreateOutcome | app/entry/api/internal/handler/adminpromotionhandler.go:160-229 | Exactly which creates are accepted, and which are refused for what; a refusal changes nothing |
| PromotionLaws.CreateWrites | app/entry/api/internal/handler/adminpromotionhandler.go:231-242 | One new row as asked under an id never used before; the others stay |
| PromotionLaws.UpdateOutcome | app/entry/api/internal/handler/adminpromotionhandler.go:244-449 | Exactly which updates are accepted; then that row alone changes, in exactly the given fields |
| PromotionLaws.UpdateNotFound | app/entry/api/internal/handler/adminpromotionhandler.go:279-296 | When an update answers that the product or the rule does not exist |
| PromotionLaws.RowsAreWellFormed | app/entry/api/internal/handler/adminpromotionhandler.go:160-449 | After any series of requests every row has a positive price, a threshold not below zero, an ordered window and a known status |
| Refund.OrderTables.RequestRefund | app/entry/api/internal/logic/refundorderlogic.go:33-123 | Checks, then status, refund row and log together |
| Refund.OrderTables.AuditRefund | app/entry/api/internal/handler/admintradehandler.go:108-213 | Approval or rejection of an open refund with all its rows, or no change |
| Refund.OrderTables.FindLastRequest | app/entry/api/internal/handler/admintradehandler.go:164-174 | The newest logged source of a refund request |
| Refund.OrderTables.ChangeStatus | app/entry/api/internal/handler/adminorderhandler.go:257-277 | The status moves only from the one required, with its log row |
| Refund.OneOpenRefund | app/entry/api/internal/handler/admintradehandler.go:123-196 | In every reachable state an order is in refund-requested exactly when it has exactly one open refund, and the fallback of a rejection is not needed |
| Refund.AuditSettles | app/entry/api/internal/handler/admintradehandler.go:140-196 | Whatever happens in between, a rejection files the refund as rejected and restores exactly the status at the request, an approval files it as succeeded and refunds the order; no other refund and no other order changes |
| Refund.AuditIsFinal | app/entry/api/internal/handler/admintradehandler.go:130-133 | An audited refund never changes again |
| Refund.FinalIsAbsorbing | app/common/orderstatus/status.go:34-52 | Closed, completed and refunded orders stay so |
| RefundLaws.RequestOutcome | app/entry/api/internal/logic/refundorderlogic.go:33-82 | Accepted exactly from the owner of a paid or shipped order under an unused id; which refusal is for what, without a change |
| RefundLaws.RequestWrites | app/entry/api/internal/logic/refundorderlogic.go:83-123 | The order waits, the refund is submitted, the log has the status it came from, nothing else changes |
| RefundLaws.OnlyOwnerRequests | app/entry/api/internal/logic/refundorderlogic.go:47-58 | Whatever happened since, only who placed an order can request its refund |
| RefundLaws.AuditOutcome | app/entry/api/internal/handler/admintradehandler.go:108-196 | Exactly which audits are accepted, and which are refused for what, without a change |
| RefundLaws.MoveOutcome | app/entry/api/internal/handler/adminorderhandler.go:257-277 | A status moves exactly from the one required when its side effect works; no other order and no refund changes |
| RefundLaws.RefundedIffPaidBack | app/entry/api/internal/handler/admintradehandler.go:108-162 | Over every run an order is refunded exactly when one refund of it succeeded or it was refunded at once, never both, and at most one refund of it succeeds |
| RefundLaws.LogIsHistory | app/common/orderstatus/status.go:34-52 | Replaying the log gives every order's status, and every change on it is legal and begins where the last one ended |

## Left out

- Audit rows and stock snapshots: written best effort with their errors ignored, no part of the state that is conserved.
- Key expiry of reservation hashes and tombstones; the deployment without MySQL; the batch read; the statistics; the
  text normalisation of the ledger mode; integer width of quantities, versions and generations.
- Seeding and reconciling as several steps that interleave with others; `Reconcile.SeedKeepsIff` and
  `Reconcile.ReconcileKeepsIff` take each as one. A reservation whose shard index exceeds the shard count.
- Commands that are still running while Redis is lost and recovered: after a restart no process goes on.
- RedisScripts.RedisStore.MarkDeducted: for an unknown order the script would create a hash with the flag alone, which
  the model leaves unmade, because a confirm marks only after its script found the hash, and hashes are never removed:
  in no run of the engine is an unknown order marked (`Engine.RunKeeps`).
- Quiescence.RunSerialKeeps: stated for final deduct, an enforced ledger, and runs that retry or release what stopped,
  do not reserve a forgotten order and read properly when they confirm; without these an order need not be settled. What
  holds in every configuration and without the discipline is `NoOverlap.RunApartKeeps`.
- Quiescence.QuiescentBalance: for those same runs; the general form, with its exact condition, is
  `NoOverlap.BalanceIsExact`.
- Isolation of MySQL below serialisable transactions, and writes that take effect later than the call that issued them.
- SessionStore.AuthStore: sessions and users are values in the store's maps; the source's pointers to them are never
  shared outside, apart from the user returned by a password update.
- The SQL session store, verification codes, user listing, login risk limits and the HTTP and JWT layers; the validator
  starts from claims already read.
- Metrics, invalidation messages between gateway instances, the JSON form of cached values, overflow of the jitter
  product; requests for a key that begins with `refresh:`, which would meet background refreshes in the load group.
- CacheLaws.StaleAnswers: the refresh that a stale answer starts in the background is a run event of its own, at any
  time (`CacheCoordinator.Event`), not part of that request.
- Promotion.AtMostOnePrice: requests are served one after another, because the check and the insert take no lock;
  times are whole seconds, so a fractional time that the column would round is not modelled.
- Parsing of promotion times and request bodies, the price snapshot itself, and other promotion kinds.
- The outbox rows and inventory compensation of a refund (its failure is a parameter), payment, and the refund path of
  the order service, which is not part of this model.
