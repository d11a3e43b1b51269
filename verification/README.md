# Verification model of the MCP gateway

This project models the parts of the gateway that change shared rows step by step, and proves
facts about every run of them. Each SQL statement, transaction or mutex section of the program is
one atomic step of a state machine; a run is a finite sequence of steps of any number of
concurrent calls. Beside the state machines stand classes whose methods follow the program's own
functions and are proved against the same step functions.

* **Ledger, LedgerRuns, Overdraft, Billing, ManualTest, ChargePolicy** – the billing protocol.
  Sessions carry a program counter; user rows, key rows, redemption codes and sessions are
  interleaved with redemptions, invite rewards, transfers and top-ups. Money is conserved per user
  and per key, a code pays once, a session settles once, a balance cannot fall below minus
  (sessions trusted at once × dearest price), and that bound is reached. Manual-test log rows
  agree with the ledger. `Billing` is the same protocol as classes; every method equals the
  corresponding run of steps, and such runs are shown to be among the interleavings.
* **Passive** – passive WebSocket credentials: validation, slow handshake, second validation and
  attach under the service lock, against reset, disable and delete.
* **VirtualBinding** – the hand-made foreign key between virtual configurations and marketplace
  items: binding, rebinding and scanning deletion under a row lock held to commit.
* **Pricing, Rounding, PriceCache** – the three-level resolver, the listing gate, rounding over the
  reals, and the double-checked TTL cache with invalidation after commit.
* **KeyPool, QueryAuth, KeyMode, Masking, Text** – credentials that live in a URL parameter, a
  header or a key pool, the moves between them, and masked values echoed back by clients.
* **RateLimit** – the fixed-window limiter over whole traces, compared with a per-key reference.
* **Uploads** – reference-counted blob deletion by concurrent batches.
* **TagStrings, Tags** – comma-joined tags, LIKE, the dictionary and its references.
* **Groups** – the batched group resolver against the naive one, and the life of installs.
* **Health** – bucketed call counts and the verdict read off them.
* **Sets** – small facts about finite sets.

Where the code does something else than its comments or its design say, the model follows the
code, and a lemma gives the exact condition:

* Appended keys are documented to go after the highest position; they go after the *number* of
  rows. After a key in the middle has been deleted, every append of a new key fails on the unique
  index (`DeletingInTheMiddleBlocksAppends`); new rows follow all others exactly when there is no
  gap (`AppendGoesLastIff`).
* A cached price is documented as at most a minute old; the age is counted from a stamp taken
  after the rows are read, so the true bound is a minute plus the load time (`Staleness`), and it
  is reached (`StalenessAttained`).
* A bearer-looking value in an item header other than Authorization loses its scheme
  (`ItemRoundTripIff`, `OtherHeaderLosesScheme`); a token of spaces is lost (`ServiceRoundTripIff`).
* The retry time told to a limited client is rounded down (`RetryAfter`, `RetryTooEarly`), and the
  limiter admits 2·max − 1 calls in one window length, 2·max with both ends counted
  (`GrantsBounded`).
* The dictionary accepts tag names with commas or surrounding spaces; tags stay inside the
  dictionary exactly for names without them (`NameIsSafeIff`).
* Log rows up to ten minutes before the health window would be counted in its first bucket
  (`CountedIff`); the error message shown can depend on row order (`MessageStableIff`); a repeated
  id can pass for a missing one in the cache test (`SameIDSetsSound`).

## Model

| member | source | states |
|---|---|---|
| LedgerRuns.Conservation | billing/billing.go:58-215 | in every interleaving, quota + affiliate quota + used quota + outstanding holds of a user equal the initial sum plus redeemed codes, rewards and grants |
| LedgerRuns.KeyConservation | model/api_key.go:94-111 | in every interleaving, a key's used quota is the initial one plus holds and confirmed prices |
| LedgerRuns.CodeRedeemedAtMostOnce | model/billing.go:121-165 | a redemption code is credited at most once in any run, and only if it was unused |
| LedgerRuns.RedeemIff | model/billing.go:121-165 | in a run, a redemption succeeds exactly for an available unexpired code, and what it changes |
| LedgerRuns.TransferIff | model/user.go:307-338 | in a run, a transfer moves affiliate quota exactly when it covers the amount, and a reward reaches an existing inviter |
| LedgerRuns.SettledExactlyOnce | billing/billing.go:153-215 | of any number of Confirm and Refund calls on a returned session, also while another one is at work, exactly one wins once the session is settled |
| LedgerRuns.DriveIsARun | billing/billing.go:58-146 | a call executed without interference is one of the interleavings, so results over runs apply to the sequential methods |
| LedgerRuns.ApplyConserves | model/user.go:178-221 | each single step of any session or other writer conserves a user's wealth plus holds |
| Overdraft.OverdraftBounded | billing/billing.go:104-127 | with at most n trusted sessions of price at most p in flight throughout, quota never falls below minus n·p; with none it never goes negative |
| Overdraft.KeyOverdraftBounded | billing/billing.go:165-170 | the matching bound on how far a limited key's used quota exceeds its limit |
| Overdraft.OverdraftAttained | billing/billing.go:104-127 | the bound is the best possible: for any settings, any number n of trusted calls and any price p, a run whose sessions all start under those settings, and which respects the limit of OverdraftBounded at every moment, ends at exactly minus n·p |
| Ledger.PreConsumeEffect | billing/billing.go:58-146 | a returned PreConsume holds exactly the pre-consumed amount or has left no trace; a rejected call is fully compensated |
| Ledger.PreConsumeVerdict | billing/billing.go:58-146 | in the caller's terms, for every choice of failing calls: which call is exempt, trusted, held, refused for its balance or its key budget, or ends as the fail-open setting says |
| Ledger.LetThroughIff | billing/billing.go:95-140 | with no failing call a paying call is let through exactly when balance and limited key budget cover price and floor, or both exceed the trust threshold |
| Ledger.RefundUndoesPreConsume | billing/billing.go:197-215 | Refund after PreConsume restores all rows |
| Ledger.ConfirmChargesThePrice | billing/billing.go:153-192 | Confirm after PreConsume charges exactly the price, whatever the pre-consumed floor was |
| Billing.Database.DecreaseUserQuotaAtomic | model/user.go:193-200 | the guarded decrement takes the amount exactly when the balance covers it |
| Billing.Database.DecreaseUserQuotaUnguarded | model/user.go:203-208 | the unguarded decrement always takes the amount |
| Billing.Database.AdjustUserUsedQuota | model/user.go:216-221 | used quota moves by the signed amount and nothing else does |
| Billing.Database.DecreaseApiKeyQuotaAtomic | model/api_key.go:94-102 | a reservation succeeds exactly for nothing at all or on a limited key with enough left, and then adds the amount to that key's used quota and nothing else |
| Billing.Database.AdjustApiKeyUsedQuota | model/api_key.go:106-111 | key usage moves by the signed amount and nothing else does |
| Billing.Database.RewardInviter | model/user.go:307-320 | the reward reaches the inviter's affiliate quota, if the inviter exists |
| Billing.Database.TransferAffQuota | model/user.go:326-338 | a transfer moves affiliate quota into quota exactly when it covers the amount |
| Billing.Database.Redeem | model/billing.go:121-165 | an available unexpired code is marked and its worth credited and added to the top-up total; otherwise nothing changes and the reason is named |
| Billing.BillingService.HandleBillingDBError | billing/billing.go:219-228 | a database error becomes a debt session when fail-open and an error otherwise |
| Billing.BillingService.PreConsume | billing/billing.go:58-146 | rows, session and error equal the session's steps run to their end, for every choice of failing statement |
| Billing.BillingService.Confirm | billing/billing.go:153-192 | rows and session equal the Confirm steps; a second call changes nothing |
| Billing.BillingService.Refund | billing/billing.go:197-215 | rows and session equal the Refund steps; a trusted or debt session moves no money |
| ChargePolicy.ChargeIsMonotone | billing/charge_policy.go:30-67 | switching further charging options on never turns a charged call into a free one, and a successful call is always charged |
| ChargePolicy.ChargedIff | billing/charge_policy.go:30-67 | which outcomes are charged: successes, client errors if that is switched on, timeouts if that is |
| ManualTest.McpServiceService.ManualEntryPreConsume | service/service.go:665-712 | a manual test holds a session exactly when its price is positive and PreConsume accepts it, is stopped exactly without a user, without a configured price or with a rejected one, and then touches no row |
| ManualTest.McpServiceService.ManualEntryFinalize | service/service.go:717-737 | status, logged quota and ledger effect of settling a manual test agree |
| ManualTest.McpServiceService.CallMarketplaceToolTested | service/service.go:752-785 | the upstream is called exactly when nothing stops the test, the logged row is the one its verdict settles, and the balance changes by minus the logged quota |
| ManualTest.McpServiceService.TestMarketplaceEntry | service/service.go:792-816 | the same for resource and prompt tests |
| ManualTest.BilledIff | service/service.go:665-737 | with no failing statement: who is charged, blocked, refunded, called or skipped, in terms of price, exemption and balance |
| ManualTest.DebtIff | service/service.go:665-737 | with failing statements: which test is on debt, and which is blocked instead |
| ManualTest.LogAgreesWithLedger | service/manual_test_log.go:64-97 | at every moment of any interleaving, the charged log rows written so far add up to the growth of the user's used quota, and the balance has moved by inflow minus those rows and the outstanding holds |
| ManualTest.StateFollowsVerdict | service/service.go:717-737 | a session settled by its own test ends confirmed or refunded as that test decided |
| Passive.AttachedSessionsAreAuthentic | router/passive_ws.go:35-55 | whenever a service's lock is free, an attached session was authenticated with the current token of an existing enabled passive service |
| Passive.PublishedWasAdmitted | router/passive_ws.go:35-55 | in every run, each session in the pool was checked under the lock at a moment when its token, service, owner and the site's switch admitted it |
| Passive.TokenVerdict | service/passive_ws.go:113-138 | which tokens are valid, which are refused as disabled, and which as bad credentials |
| Passive.ConnectionChecks | router/passive_ws.go:20-62 | when a connection begins its handshake, waits for the lock and goes on to publish |
| Passive.AdmittedIsPublished | router/passive_ws.go:20-62 | an admitted connection that is left alone is published and the lock free again |
| Passive.ApplyKeepsInv | service/passive_ws.go:113-138 | each step of handshake, reset, disable or delete keeps the lock and session invariant |
| Passive.KnowledgeKept | router/passive_ws.go:35-55 | what a thread has checked under the service lock stays true while it holds the lock |
| Passive.AloneFinishes | router/passive_ws.go:20-62 | from any point on, an undisturbed handler comes to its end and the service lock is free again |
| Passive.Gateway.HandlePassiveWebSocket | router/passive_ws.go:20-62 | whatever the others do during the handshake, the connection is published exactly if token, service, owner and site switch admit it before the handshake and still do under the lock |
| Passive.Gateway.ResetPassiveToken | service/passive_ws.go:188-219 | after a reset only the new token is valid and no old session is attached |
| Passive.Gateway.UpdateStatus | service/service.go:372-384 | disabling removes the session, in-lock and before the lock is released |
| Passive.Gateway.DeleteService | service/service.go:446-457 | deleting removes row and session |
| VirtualBinding.ExposedItemsStayBound | model/virtual_binding.go:24-63 | in every interleaving of listings, rebindings and deletions, an enabled undeleted virtual item is bound to an undeleted configuration of its admin |
| VirtualBinding.StepKeepsIntegrity | service/virtual_marketplace.go:13-35 | the write of each transaction keeps the reference intact, given what was checked under the row lock |
| VirtualBinding.OthersStayEstablished | model/virtual_binding.go:24-31 | a write under one configuration's lock does not invalidate what another transaction checked under its own |
| VirtualBinding.DeletionGoesOnIff | model/virtual_binding.go:41-63 | at any moment of any interleaving, a deletion under the lock goes on exactly if no undeleted item of the administrator, enabled or not, is bound to the configuration |
| VirtualBinding.ListingGoesOnIff | service/virtual_marketplace.go:13-35 | a listing or rebinding under the lock goes on exactly if the configuration is the administrator's, undeleted, registered and enabled, and no camera |
| VirtualBinding.ListedThenDeleted | model/virtual_binding.go:41-63 | for every listable configuration: an item is listed, then deletion is refused, and it succeeds once the item is gone |
| VirtualBinding.Marketplace.RequireVirtualConfigUnbound | model/virtual_binding.go:41-63 | the scan finds exactly the undeleted items bound to the configuration |
| VirtualBinding.Marketplace.RemoveConfig | service/imagegen.go:272-312 | a configuration is deleted exactly when no item refers to it, as by the undisturbed transaction |
| VirtualBinding.Marketplace.CloneFromService | service/marketplace.go:975-985 | a listing is created exactly on a lockable, listable configuration, as by the undisturbed transaction |
| VirtualBinding.Marketplace.UpdateItem | service/marketplace.go:477-511 | which updates are refused and the row an accepted one writes, the same as the undisturbed transaction; enabling or rebinding re-validates the binding |
| Pricing.NotConfiguredIff | billing/pricing.go:120-175 | exactly when the resolver reports a missing price |
| Pricing.PriceComesFrom | billing/pricing.go:120-191 | a resolved price that costs anything is a per-call price with billing on, and its scope names the level it was taken from |
| Pricing.EntryPaysItsPrice | billing/pricing.go:136-146 | an entry with a price of its own costs exactly that price times the group's ratio |
| Pricing.InheritedPrice | billing/pricing.go:152-174 | a tool without a price, or an entry that inherits, costs the service's price or, in self-use mode, the default, and is unpriced otherwise |
| Pricing.FreeCalls | billing/pricing.go:123-150 | everything is free with billing off, and so is a resource or prompt without a row |
| Pricing.ClonedItemIsSold | service/marketplace.go:878-985 | an item cloned at a per-call price in range is on sale and costs that price |
| Pricing.EntryPriceWins | billing/pricing.go:120-175 | an entry price hides service price and defaults; an unpriced resource or prompt is free |
| Pricing.FinalPriceMonotone | billing/pricing.go:178-215 | a dearer unit price never gives a cheaper call |
| Pricing.RoundingError | billing/pricing.go:202-215 | rounding twice stays within (ratio + 1) / 2 of the exact amount |
| Pricing.EnabledItemsStayPriced | service/marketplace.go:137-154 | with self-use mode off, over every sequence of clones, updates, batch price changes and deletions an enabled item is explicitly priced and resolves |
| Pricing.Catalogue.Clone | service/marketplace.go:878-985 | a clone is listed exactly when its price passes validation and the gate |
| Pricing.Catalogue.UpdateItem | service/marketplace.go:455-474 | which updates are refused, the item an accepted one leaves, and that the gate is kept |
| Pricing.Catalogue.BatchUpdatePricing | service/marketplace.go:675-705 | all prices are checked before any is written; the result is the updates applied in order |
| Pricing.LastUpdateWins | model/marketplace.go:232-251 | of several updates of one item in a batch the last one stands |
| Pricing.OnlyPricesChange | model/marketplace.go:232-251 | a batch leaves status, deleted items and unnamed items alone |
| Pricing.Catalogue.DeleteItem | service/marketplace.go:527-546 | deletion keeps the gate |
| Rounding.CurrencyToQuota | model/option.go:222-227 | the quota of an amount is off amount times quota-per-unit by half a unit at most, and zero for no amount |
| PriceCache.Coherence | billing/pricing.go:62-108 | a lookup that begins after a price writer has committed and invalidated returns that writer's version or a later one, under any interleaving |
| PriceCache.Staleness | billing/pricing.go:54-94 | any answer was current when its rows were read and is handed out less than the TTL after its stamp, hence out of date by less than TTL plus load time |
| PriceCache.StalenessAttained | billing/pricing.go:54-94 | for every load time that bound is reached |
| PriceCache.EnabledNeverUnconfigured | service/marketplace.go:465-473 | with self-use mode off: once an administrator call has returned, and while the item stays enabled and undeleted from then on, no lookup begun later resolves to a missing price, under any interleaving of administrators, readers and loaders |
| PriceCache.RunKeepsGate | service/marketplace.go:137-154 | every version of every item committed in any run passes the listing gate |
| PriceCache.WrittenIsServed | billing/pricing.go:62-108 | a writer left alone commits and drops the cached entry, and a lookup after it serves exactly what it has written |
| PriceCache.LookupChecks | billing/pricing.go:64-81 | both checks of a lookup serve an entry younger than a minute, and the second one loads a live item otherwise |
| PriceCache.ItemCommitted | service/marketplace.go:455-508 | an administrator's writer appends the item as the call leaves it, or commits nothing when the call is refused |
| PriceCache.StepKeepsInv | billing/pricing.go:62-94 | each reader, loader or writer step keeps versions, locks and cache entries consistent |
| PriceCache.PricingCache.Load | billing/pricing.go:62-94 | an undisturbed lookup is exactly five steps of the state machine |
| PriceCache.PricingCache.InvalidatePricingCacheItem | billing/pricing.go:104-108 | exactly one entry is dropped |
| PriceCache.PricingCache.InvalidatePricingCache | billing/pricing.go:97-101 | the cache is emptied |
| RateLimit.GrantsBounded | middleware/rate_limit.go:81-111 | over every trace of all keys with non-decreasing times, a key is admitted at most 2·max − 1 times in any half-open interval of one window length, and 2·max times in any closed one |
| RateLimit.IntervalBoundAttained | middleware/rate_limit.go:81-111 | the half-open bound is reached for every limit |
| RateLimit.ClosedBoundAttained | middleware/rate_limit.go:81-111 | so is the closed one |
| RateLimit.WindowAdmitsFirstMax | middleware/rate_limit.go:81-111 | a window admits its first max calls and no other |
| RateLimit.BlockedMeansFull | middleware/rate_limit.go:81-111 | a blocked call has exactly max admitted calls behind it in its own window |
| RateLimit.KeysDoNotInterfere | middleware/rate_limit.go:123-199 | neither pruning nor other keys change a decision: each key is answered as by a limiter of its own |
| RateLimit.RetryAfter | middleware/rate_limit.go:93-101 | a client waiting as told is admitted exactly when the time left was at most a second or a whole number of seconds |
| RateLimit.RetryTooEarly | middleware/rate_limit.go:93-101 | one call a minute, the second a second and a half before the window ends: told to wait a second, the client is refused again |
| RateLimit.WindowDuration | middleware/rate_limit.go:52-57 | a window lasts at least a minute |
| RateLimit.ResolveRule | middleware/rate_limit.go:38-57 | a group's own positive limit and window count, else the site's |
| RateLimit.UnlimitedIsFree | middleware/rate_limit.go:81-92 | without a positive limit a call is let through and not counted |
| RateLimit.Limiter.ConsumeMCPToolQuota | middleware/rate_limit.go:81-111 | decision and counters for a WebSocket call are those of the shared rule |
| RateLimit.Limiter.RateLimit | middleware/rate_limit.go:123-199 | decision and counters for an HTTP call are the same ones; anything but an authenticated tools/call is free |
| RateLimit.Limiter.Prune | middleware/rate_limit.go:102-109 | exactly the expired counters are dropped |
| Uploads.LiveRowsKeepTheirBlobs | controller/upload.go:352-367 | in any interleaving, whatever calls fail, a blob with a live row is not removed |
| Uploads.NoOrphans | controller/upload.go:352-367 | when all deleters are through and no call failed, a blob without rows is gone |
| Uploads.OthersRowsStay | controller/upload.go:352-367 | in every interleaving a row stays as long as neither its owner nor an administrator asks for it to go |
| Uploads.AloneIsBatchDelete | controller/upload.go:390-404 | an undisturbed deleter of the state machine ends with the rows, blobs and counters of the batch |
| Uploads.AloneIsARun | controller/upload.go:390-404 | and such a deleter is a run of the machine |
| Uploads.EveryIdIsCounted | controller/upload.go:390-404 | deleted plus failed equals the number of ids of the request |
| Uploads.Uploads.CountByKey | model/uploaded_image.go:154-158 | the count is the number of rows with the key |
| Uploads.Uploads.DeleteUploadRow | controller/upload.go:352-367 | owner check, row removal and removal of the blob exactly with its last row |
| Uploads.Uploads.BatchDelete | controller/upload.go:390-404 | each deletable row goes once, with exactly the blobs that lose their last row; the counters say so |
| KeyPool.CleanedValues | model/mcp_service_key.go:172-187 | cleaning keeps exactly the trimmed non-blank values, each once, and fails exactly on one of more than 8192 bytes |
| KeyPool.CleaningIsStable | model/mcp_service_key.go:172-187 | cleaning a cleaned list changes nothing, so the second cleaning of an update is harmless |
| KeyPool.AppendAdds | model/mcp_service_key.go:44-88 | an append adds exactly the missing values, enabled, and changes no existing row |
| KeyPool.AppendGoesLastIff | model/mcp_service_key.go:42-80 | new rows come after all existing ones if and only if the positions have no gap |
| KeyPool.AppendRefusedIff | model/mcp_service_key.go:62-85 | for any pool, an append of new values within the limit is refused exactly when a position just after the number of rows is in use |
| KeyPool.DeletingInTheMiddleBlocksAppends | model/mcp_service_key.go:62-85 | after deleting a row that is not the last of a gapless pool, every append of a new value fails |
| KeyPool.BlockedAppend | model/mcp_service_key.go:62-85 | for one: two keys, the first deleted, and no third key can be added |
| KeyPool.GaplessAppendSucceeds | model/mcp_service_key.go:62-85 | without gaps an append fails only on the limit of 100 |
| KeyPool.OpKeepsPoolOk | model/mcp_service_key.go:91-157 | every pool operation keeps at most 100 non-blank, pairwise distinct values |
| KeyPool.FirstKeyStays | service/service_keys.go:506-520 | the key picked for single mode is the first one, as long as it is not replaced, disabled or deleted |
| KeyPool.PickedRow | service/service_keys.go:511-523 | the value taken back is that of the first enabled row, or of the first row when none is enabled |
| KeyPool.ReplacedPool | model/mcp_service_key.go:91-117 | a replaced pool reads back as the cleaned list, in order, enabled and without gaps |
| KeyPool.ReplacedIff | model/mcp_service_key.go:91-117 | a replacement is carried out exactly for one to a hundred usable values |
| KeyPool.KeyStore.CleanValues | model/mcp_service_key.go:172-187 | the loop computes the cleaned list |
| KeyPool.KeyStore.Append | model/marketplace_item_key.go:38-82 | the loop over new values computes the append, for services and items alike |
| KeyPool.KeyStore.Replace | model/marketplace_item_key.go:85-111 | replacing renumbers from one and resets every status |
| KeyPool.KeyStore.SetKeyStatus | model/mcp_service_key.go:121-134 | only the named row changes, and only in status and reason; enabling clears the reason; the pool stays proper |
| KeyPool.KeyStore.DeleteKey | model/mcp_service_key.go:137-140 | one row goes, the others keep their positions |
| KeyPool.KeyStore.EnableAll | model/mcp_service_key.go:143-151 | every row is enabled without reason and the listing is the same, value by value |
| KeyPool.KeyStore.DeleteDisabled | model/mcp_service_key.go:154-157 | exactly the enabled rows stay, unchanged and at their positions, and the key picked for single mode is the same if any was enabled |
| QueryAuth.CredentialsStayInOnePlace | service/service.go:318-367 | every reachable service with URL authentication, created with it or moved to it later from none or a header, has in single mode exactly one non-blank parameter and an empty pool, in multi mode no such parameter and a proper pool |
| QueryAuth.ItemCredentialsStayInOnePlace | service/marketplace.go:342-405 | the same for every item cloned from such a service, under item updates, mode switches and pool changes |
| QueryAuth.UpgradeThenDowngrade | service/service_keys.go:463-543 | to multi mode, any pool changes sparing the first key, and back restores the parsed URL |
| QueryAuth.ItemUpgradeThenDowngrade | service/marketplace_keys.go:118-188 | the same for items |
| QueryAuth.CreateServiceOk | service/service.go:79-145 | creation, with any authentication and in either mode, starts in a proper state |
| QueryAuth.CreateOk | service/service_keys.go:30-61 | creation with URL authentication starts with the credential in one place |
| QueryAuth.CreatedSingle | service/service_keys.go:30-61 | which URLs a service can be created with |
| QueryAuth.PooledIff | service/service_keys.go:30-61 | with a pool, creation needs one to a hundred usable values, which are pooled in order |
| QueryAuth.CloneOk | service/marketplace_keys.go:496-530 | so does an item cloned from such a service |
| QueryAuth.TakeThenPut | service/query_auth.go:30-58 | putting back what was taken gives the same parsed URL |
| QueryAuth.PutThenTake | service/query_auth.go:30-58 | taking returns what was put and the rest of the query |
| QueryAuth.RenameMoves | service/query_auth.go:75-89 | renaming moves a lone credential, drops the old name and touches no other parameter |
| QueryAuth.RenameBack | service/query_auth.go:75-89 | renaming back restores the URL when the new name was free |
| QueryAuth.MergeUndoesMaskIff | service/query_auth.go:91-119 | an echoed masked URL is restored exactly with at most one credential, or values a mask does not change |
| QueryAuth.SavedUrl | service/service.go:309-367 | a URL saved on a service is accepted exactly with one non-blank credential; the stored one is kept where its mask came back, and replaced otherwise |
| QueryAuth.SavedItemUrl | service/marketplace.go:342-405 | the same on an item |
| QueryAuth.EchoedUrlChangesNothing | service/service.go:318-322 | saving the masked URL that was shown changes nothing, on a service or an item |
| QueryAuth.RenamedUnderMask | service/service.go:318-367 | a rename to a free name, with the masked URL echoed or none sent, leaves the stored credential under the new name |
| QueryAuth.SavedWithPool | service/service.go:280-367 | with a key pool a URL is accepted exactly without the parameter, and neither name nor authentication can change |
| QueryAuth.SavedItemWithPool | service/marketplace.go:342-405 | the same on an item |
| QueryAuth.ChangedAuth | service/service.go:330-367 | leaving URL authentication takes the credential out of the URL; taking it up demands one under a valid name |
| QueryAuth.ChangedItemName | service/marketplace.go:342-405 | an item takes up, keeps and leaves URL authentication by the name that is sent |
| QueryAuth.UpgradedIff | service/service_keys.go:463-504 | who can go over to a key pool and what the row is then |
| QueryAuth.DowngradedIff | service/service_keys.go:506-543 | who can go back to single mode and with which value |
| QueryAuth.RunThereAndBack | service/service_keys.go:463-543 | the way there and back as a run of operations |
| QueryAuth.ServiceRow.UpgradeToMultiQueryKey | service/service_keys.go:463-504 | refusals, new columns and pool of the upgrade, keeping the credential in one place |
| QueryAuth.ServiceRow.DowngradeToSingleKey | service/service_keys.go:506-543 | refusals and new columns of the downgrade, keeping the credential in one place |
| QueryAuth.ServiceRow.UpdateAuth | service/service.go:280-367 | refusals and new columns of an update, keeping the credential in one place |
| KeyMode.ServiceRoundTripIff | service/service_keys.go:318-424 | headers survive single to multi and back if and only if the token is trimmed and a bearer header carries the scheme |
| KeyMode.ItemRoundTripIff | service/marketplace_keys.go:397-490 | for items, if and only if the token is trimmed and a scheme occurs in Authorization only |
| KeyMode.UpgradedIff | service/service_keys.go:318-424 | when the move to a key pool is refused, with nothing left in the pool |
| KeyMode.BareHeaderGainsScheme | service/service_keys.go:318-424 | for every trimmed token without the scheme: a bearer header that carries it bare comes back with the scheme |
| KeyMode.OtherHeaderLosesScheme | service/marketplace_keys.go:397-490 | for every trimmed token: an item header other than Authorization that carries it with the scheme comes back without |
| KeyMode.MovedValue | service/service_keys.go:545-559 | what comes back: the trimmed token with the recorded scheme, other headers untouched |
| KeyMode.HeaderRow.UpgradeToMultiKey | service/marketplace_keys.go:397-447 | the token enters the pool before its header goes, at service and item level: a failed save leaves the header with the token already pooled |
| KeyMode.HeaderRow.DowngradeToSingleKey | service/marketplace_keys.go:451-490 | the picked key returns to its header and the pool is emptied, or, when the save fails, nothing changes |
| Masking.MergeUndoesMask | service/marketplace.go:186-261 | echoing the masked configuration changes nothing, for every configuration |
| Masking.SecretsAreMasked | service/marketplace.go:186-217 | every string in headers and env leaves the server as its mask, the scheme of a bearer token excepted, and nothing else is touched |
| Masking.MergedEntryIsStoredIff | service/marketplace.go:222-261 | each merged entry is the stored plaintext exactly when its mask was submitted, and the submitted value otherwise |
| Masking.MergeTwice | service/marketplace.go:222-261 | merging is idempotent |
| Masking.MaskShowsOnlyEnds | service/marketplace.go:173-179 | two secrets have equal masks exactly when both are short, or both are long and agree in four characters at each end |
| Masking.MaskShowsIff | service/marketplace.go:186-217 | two configurations look the same masked exactly when they agree outside headers and env and, inside, in all but the hidden parts of secrets |
| Masking.MaskFixedPoints | service/marketplace.go:173-179 | which values equal their own mask |
| Masking.Submission.MergeMaskedCredentials | service/marketplace.go:222-261 | the in-place loops compute the merge |
| TagStrings.FilterFindsWholeWords | model/marketplace.go:129-134 | the four LIKE patterns hold exactly of strings with the tag as one of their comma-separated words |
| TagStrings.PrefilterMissesNothing | model/marketplace.go:278-282 | the substring query finds every row that holds the name as a word, for any name |
| TagStrings.WordsJoin | service/marketplace.go:1267-1272 | non-empty comma-free words survive joining and splitting |
| TagStrings.JoinSplit | model/marketplace.go:292-308 | splitting and joining is the identity on every string |
| Tags.TagsStayInDictionary | service/marketplace_tag.go:90-153 | over every sequence of dictionary and item operations with good names, item tags are enabled dictionary names without repetition |
| Tags.NameIsSafeIff | service/marketplace_tag.go:62-153 | a name keeps that invariant through being given, renamed to and deleted if and only if it is trimmed and comma-free |
| Tags.RenamedWords | model/marketplace.go:286-320 | renaming exchanges whole words and keeps their order |
| Tags.RenamedWordSet | model/marketplace.go:286-320 | on any string at all, a rename leaves no blank and no repeated word |
| Tags.RemovedWords | model/marketplace.go:325-357 | removal drops exactly the word and keeps the rest in order |
| Tags.RewrittenIff | model/marketplace.go:286-357 | an item is rewritten exactly if one of its words is the name |
| Tags.RemovedWordSet | model/marketplace.go:325-357 | on any string at all, a removal leaves the trimmed other words |
| Tags.CountDecides | model/marketplace_tag.go:56-65 | comparing counts decides whether all names are enabled, because names are unique |
| Tags.CleanedTags | service/marketplace.go:81-106 | cleaning keeps exactly the trimmed non-blank tags, each once |
| Tags.TagService.CleanAndValidateTags | service/marketplace.go:81-106 | tags are accepted exactly when all of them are enabled |
| Tags.TagService.ReplaceMarketplaceTagName | model/marketplace.go:286-320 | the row and word loops rename in every item |
| Tags.TagService.RemoveMarketplaceTagName | model/marketplace.go:325-357 | the row and word loops remove from every item |
| Tags.TagService.Update | service/marketplace_tag.go:90-138 | renaming and disabling carry over to all items in the same step |
| Tags.TagService.Delete | service/marketplace_tag.go:140-153 | deletion takes the tag off all items |
| Tags.TagService.SetItemTags | service/marketplace.go:712-760 | single and batch tagging write the cleaned list to exactly the named live items |
| Groups.Directory.ResolveEnabledServicesForGroups | model/mcp_group_service.go:73-125 | for every answer the database may give, the pairs found are those of asking group by group and membership by membership, and with stable ordering in the same order |
| Groups.TiesDoNotMatter | model/mcp_group_service.go:36-40 | however ties of sort order are broken in either query, each group yields the same pairs the same number of times, in sort order |
| Groups.SortCommutes | model/mcp_group_service.go:36-40 | one group's part of the batched order is the order of asking for that group alone |
| Groups.ResolvedIff | model/mcp_group_service.go:73-125 | resolved are exactly the enabled services with an enabled membership in a given group |
| Groups.NothingOfflineIsResolved | model/mcp_service.go:182-199 | in every reachable state, whatever membership rows are left over, no install of an offline or deleted item is resolved |
| Groups.EnabledInstallsAreOnSale | service/service.go:298-304 | an enabled install is an install of an item on sale, and a user has at most one per item |
| Groups.InstalledIsResolved | model/mcp_group_service.go:73-125 | an item that is created, installed and put in a group is what that group resolves to |
| Groups.OfflineLeavesNoMembership | service/marketplace.go:442-508 | taking an item offline removes its installs from all groups, and listing it again brings none back |
| Groups.Directory.AddToMyServices | service/marketplace.go:1084-1159 | only an item on sale can be added; an existing install is enabled again |
| Groups.Directory.UpdateService | service/service.go:298-398 | an install of an offline item cannot be enabled; disabling leaves all groups |
| Groups.Directory.UpdateItem | service/marketplace.go:442-508 | disabling an item disables its installs in the same transaction |
| Groups.Directory.DeleteItem | service/marketplace.go:527-546 | so does deleting it |
| Health.BucketsPartitionCalls | service/health_snapshot.go:102-140 | each counter holds the rows of its key, slot and outcome, and all counters together hold every counted row once |
| Health.SnapshotIgnoresOrder | service/health_snapshot.go:102-140 | counters, last call and last error time do not depend on row order |
| Health.MessageStableIff | service/health_snapshot.go:127-135 | the error message is independent of row order exactly when all failures of the latest failing second agree |
| Health.CountedIff | service/health_snapshot.go:121-124 | exactly which rows are counted, given division toward zero |
| Health.InCellIff | service/health_snapshot.go:102-124 | of the rows of the query, which count for a key and in which bucket |
| Health.RightBucket | service/health_snapshot.go:121-124 | a row of the query is counted in the bucket it falls in |
| Health.WindowHoldsNow | service/health_snapshot.go:82-84 | the window starts on a ten-minute mark and its last bucket holds the present |
| Health.HealthOfRows | service/service.go:1321-1339 | from rows to verdict: unknown without calls, otherwise healthy exactly if the latest ten-minute slot with a call has a success |
| Health.DerivePassiveHealth | service/service.go:1321-1339 | the backward scan returns the verdict of the latest non-empty bucket |
| Health.BuildSnapshots | service/health_snapshot.go:102-160 | the loops compute the per-key tallies, also for keys without calls |
| Health.SameIDSets | service/health_snapshot.go:69-79 | what the cache test computes |
| Health.SameIDSetsIff | service/health_snapshot.go:69-79 | for requests without repetition it is set equality |
| Health.SameIDSetsSound | service/health_snapshot.go:69-79 | with repetitions a positive answer still covers every requested id |
| Health.HealthCache.GetSnapshots | service/health_snapshot.go:42-67 | hit or miss, every requested service has a snapshot less than the TTL old |

## Left out

- Billing.BillingService.Confirm: database errors inside settling and compensation writes are not modelled; the statements of Confirm and Refund succeed.
- Billing.BillingService.PreConsume: whether a request id was already charged is a parameter; two concurrent requests with the same id may both be charged, as in the program.
- RateLimit.GrantsBounded: for a fixed configuration; changing the rule or switching the limiter off in mid-trace is not considered.
- Uploads.NoOrphans: insertion of uploads and the expiry sweeps are not part of this model, so a row that arrives between the count and the blob deletion is not considered.
- PriceCache.EnabledNeverUnconfigured: an administrator call reads and writes the item in one step, and self-use mode does not change during a run.
- TagStrings.FilterFindsWholeWords: case folding and backslash escapes of LIKE are not modelled.
- KeyPool.AppendAdds: a row is named by its position instead of its id.
- QueryAuth.CredentialsStayInOnePlace: an unparsable URL, which an update in multi mode can store, counts as carrying no parameter; requests that carry a key mode inside the auth configuration and the HTTP-only transport check are not modelled.
- Health.HealthOfRows: the limit of 200000 rows of the query is not modelled.
- Full-row saves that race with column updates (user update, API-key update, admin quota set and subtract) are not interleaved; the redemption status update is taken as one step.
- Users and keys are not deleted while sessions are in flight.
- Tag, install and pricing-gate invariants treat a service call as one step; their validation happens before the transaction in the program.
- User and marketplace-wide switches may flip at any time in the passive protocol, but existing sessions are not dropped by them, as in the program.
- Snapshot columns copied to install rows (names, tags, tool lists), install counts, reviews and system logs.
- Encryption is the identity, float64 rounding is rounding over the reals, percent-encoding is hidden behind the parsed query.
- Session pool, storage and database drivers are represented by the state they change.
- HTTP handlers, routing, e-mail, setup, settings, camera and media generation, and the database migration script.
