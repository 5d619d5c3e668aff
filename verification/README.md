# Verified protocols of the backend

This project models the protocols this backend runs over its database rows, and the byte codec of its QTAG tags, and
proves what they are for. Tables are sequences or maps; a class holds the tables an object updates, and each database
call or transaction is one atomic step. Where calls interleave (registration sagas, NFC taps, anchor and retry workers)
the interleaving is a state machine whose steps are single database accesses, and the theorems hold for every run.

| file | models |
|---|---|
| `Common.dfy` | options, results, sums over table rows |
| `LedgerTable.dfy` | the append-only ledger table both ledgers use: rows, scopes, projection, key uniqueness |
| `CreditLedger.dfy`, `CreditLedgerProofs.dfy` | the credit ledger: its calls, and balances, conservation and exactly-once over whole runs |
| `CreditTotals.dfy` | what each call asks for, when it goes through, and what the balances and totals make of it |
| `RegistrationSaga.dfy` | the reserve, consume and release sagas of registrations, interleaved, crashing and retried |
| `QTagOrders.dfy`, `QTagFacets.dfy` | QTAG orders, encoding sessions and the QTAG ledger: the machine, and the facets that run it |
| `QTagProofs.dfy`, `QTagRecovery.dfy` | why orders and ledger stay in step, and why a confirm can crash and be repeated |
| `QTagInterrupted.dfy` | orders and ledger over runs with interrupted and repeated confirms |
| `QTagAssets.dfy` | one live order per asset, a device of its own once activated, and what reserve and release keys can do |
| `QTagBalances.dfy` | what the QTAG ledger lets a scope spend |
| `QTagDevices.dfy` | whose uid and keys an activated order's device has |
| `QTagConditions.dfy` | when the QTAG calls go through, and what that means for sessions and tagged assets |
| `DeviceGuard.dfy` | the anti-replay counter of an NFC device, alone and under concurrent taps |
| `DeviceVerdicts.dfy` | the verdict and log row of each tap, without reference to the atomic judge |
| `AnchorTables.dfy`, `AnchorServices.dfy` | the event log and the pending transactions, the anchor queue and the retry worker |
| `AnchorErrors.dfy` | what the error messages decide |
| `AnchorRouting.dfy` | which events a batch takes and where they go |
| `AnchorWorkers.dfy`, `AnchorProofs.dfy` | any number of those workers interleaved, and what holds of every run |
| `AnchorRewrites.dfy` | when an anchored event can still get another transaction id |
| `AnchorRefinement.dfy` | the services as runs of that machine |
| `RetryBackoff.dfy`, `RetryLimit.dfy` | attempts, spacing and termination under one retry worker, and when the attempt limit holds |
| `Crc16.dfy`, `NtagLayout.dfy` | the CRC and the 144-byte tag layout |
| `RateLimiter.dfy` | the per-IP limiters and the sweeper |
| `RateWindows.dfy` | the limiter against its history of accepted requests |
| `DepositScanner.dfy` | the EVM deposit scanner |
| `AssetEscrow.dfy` | the asset status shared by escrow, lifecycle, transfer and billing |
| `EscrowAccess.dfy` | who can change which asset and which escrow |

`dafny verify dfyconfig.toml` checks everything.

## Results that say no

Several things one might expect of the code are false. Each is stated with the run or condition that decides it.

- The tenant's total credit can go below zero although every user's stays non-negative (`MixedScopesCanOverdrawTheTenant`);
  it is safe exactly as long as the rows without a user do not add up to less than zero (`TotalIsSafeIffUserlessRowsAre`).
- The projection's `adjusted` adds absolute values, so the report balances iff nothing was adjusted downwards.
- A release between a crashed confirm and its re-run lets the re-run spend another order's reservation.
- A retry of a dependent registration that was released consumes nothing of its own: it is refused or spends the
  reservation of another registration of the guardian (`RetryAfterReleaseSpendsAnother`, `RetryStarvesAnother`).
- After a release, reserving the same asset under its default key is answered without an error and without an order
  (`ReserveCreatesIff`, `ReleasedAssetStaysUnreserved`).
- An event may be anchored twice: by an anchor worker and a retry worker, or by one retry worker with two rows of the event.
  It can happen to an anchored event exactly as long as `TxIdCanChangeIff` says somebody may still write it.
- A row may be executed more often than `maxAttempts`, unless the limit is one or a single worker retries (`LimitHoldsIff`).
- A comment promises waits of 1, 2, 4, 8 and 16 minutes for five attempts (`src/services/RetryWorker.ts:13`); the fifth
  failure goes to the dead letters, so the last wait is eight minutes.
- A client that waits exactly `Retry-After` seconds is still refused when the remaining time was a whole number of seconds.
- A last scanned block of 0 is taken for no block at all.
- Two matching transfers in one transaction make one deposit; all get their own exactly when there are none
  (`EveryTransferHasItsDepositIff`).
- A lock whose chain call fails leaves an open escrow on an unlocked asset; a release or cancel that names another asset
  unlocks that one, and can revive a burned one, of another tenant too (`ForeignCallChangesAssetIff`).
- A chain that complains of "insufficient funds" with a small letter gets no wait for funds: the transaction is given up at
  its first retry (`SmallLetterLosesTheWait`).
- A confirm replaces the keys of a device that exists even when the device is another tenant's, and leaves it that tenant's
  (`DeviceTakesKeys` in `QTagDevices.dfy`).
- `decryptPiccData` says that a padding byte precedes the counter (`src/services/QTagCryptoService.ts:42`); the code
  reads bytes 7 to 9, and the model follows the code.

## Assumptions

- Each ledger call is atomic, although `adjustCredits` and `revokeCredits` read the balance outside their transaction.
- Ids the database or a caller generates are parameters; a fresh one is required where the theorem needs it.
- An orderly QTAG run: fresh order and session ids, caller keys outside the `qtag-consume:` and `qtag-release:` families,
  default release keys, each session confirmed once, and no release while one of the order's sessions is open. Where
  confirms are interrupted, a session may be confirmed again while its order is being encoded, with the same verdict once
  the ledger has its row, and nothing is released in between.
- Within a tenant a key serves one registration in one role; `RegistrationsDisciplinedIff` says what that asks of callers.
- A transaction sits in one block of the chain, and an escrow without an asset is one whose asset id is empty, as the
  release worker passes it on.
- No adapter hands out `PROCESSING` or `RETRY_QUEUED` as a transaction id, event rows are not deleted, and database calls
  of the workers do not throw, except that updating a missing row does.
- Chain adapters, clocks and MAC checks are parameters: a success with an id, a failure with a message, or a throw.

## Model

| member | source | states |
|---|---|---|
| `CreditLedgerProofs.BalancesNeverNegative` | src/services/core-facets/CreditLedgerFacet.ts:127-250 | After any serial run of ledger calls, accepted or refused, in any mixture of user and tenant scope, every real user's available and reserved sums are non-negative and no tenant has two rows with one key |
| `CreditLedgerProofs.CreditsAreConserved` | src/services/core-facets/CreditLedgerFacet.ts:105-269 | In every scope, after every run: available + reserved + consumed + revoked = purchased + granted + the signed adjustments |
| `CreditLedgerProofs.ReportBalancesIffNoDownwardAdjustment` | src/services/core-facets/CreditLedgerFacet.ts:402-418 | The projection's own totals balance exactly when no downward adjustment lies in the scope, because `adjusted` sums absolute values |
| `CreditLedgerProofs.ExactlyOnce` | src/services/core-facets/CreditLedgerFacet.ts:183-309 | Dropping from any run every keyed call that follows a success with the same tenant and key leaves the final ledger and all other answers unchanged |
| `CreditLedgerProofs.RetryWritesNothing` | src/services/core-facets/CreditLedgerFacet.ts:364-378 | A call whose key is already in its tenant's ledger writes nothing, whether it is answered or throws on its balance check |
| `CreditLedgerProofs.OperationalRetryGetsTheFirstRow` | src/services/core-facets/CreditLedgerFacet.ts:191-194 | After any calls in between, an operational retry is answered with the very row its first call wrote |
| `CreditLedgerProofs.SummaryIsTheProjection` | src/services/core-facets/RegistrationCreditFacet.ts:50-58 | The two `Math.max(0, …)` clamps never bite, for any user id, the empty one included; for a real user the summary equals the projection after every run |
| `CreditLedgerProofs.MixedScopesCanOverdrawTheTenant` | src/services/core-facets/CreditLedgerFacet.ts:156-181 | A run of three accepted calls leaves the tenant total at -5 while the only user stands at 0: a call without a user checks the whole tenant but writes a row no user owns |
| `CreditLedgerProofs.TotalIsSafeIffUserlessRowsAre` | src/services/core-facets/CreditLedgerFacet.ts:183-204 | From any ledger the calls can leave: whatever the tenant's users go on to do, the tenant's total stays non-negative iff its user-less rows do not add up to less than zero |
| `CreditLedgerProofs.CallKeepsTotalSafeIff` | src/services/core-facets/CreditLedgerFacet.ts:156-181 | A call keeps the total safe iff it writes no user-less debit beyond the sum of the user-less rows |
| `CreditLedgerProofs.GetSummary` | src/services/core-facets/RegistrationCreditFacet.ts:28-59 | The summary loop computes the clamped available and reserved sums and the consumed total of the rows with exactly this user id |
| `LedgerTable.ProjectionIgnoresOrder` | src/services/core-facets/CreditLedgerFacet.ts:380-422 | The projection is the same for every permutation of the rows; its query has no ordering |
| `LedgerTable.Table.GetBalanceProjection` | src/services/core-facets/CreditLedgerFacet.ts:380-422 | The accumulator loop computes the projection's nine totals as sums over the rows in scope |
| `LedgerTable.Table.FindIdempotentEntry` | src/services/core-facets/CreditLedgerFacet.ts:364-378 | Finds a row with the tenant and key exactly when there is one; an absent or empty key is never looked up |
| `LedgerTable.Table.Create` | prisma/schema.prisma:1001-1022 | A row is refused by the tenant foreign key or by (tenantId, idempotencyKey) uniqueness, otherwise appended; nothing else changes |
| `CreditLedger.WriteAdminLedgerEntry` | src/services/core-facets/CreditLedgerFacet.ts:271-333 | An administrator's row is replayed by its key, refused by the table, or appended |
| `CreditLedger.GrantCredits` | src/services/core-facets/CreditLedgerFacet.ts:105-125 | Leaves exactly the ledger, and gives exactly the answer, that the meaning of the call prescribes |
| `CreditLedger.AdjustCredits` | src/services/core-facets/CreditLedgerFacet.ts:127-154 | The same for adjustments; the balance is checked before the key is looked up |
| `CreditLedger.RevokeCredits` | src/services/core-facets/CreditLedgerFacet.ts:156-181 | The same for revocations; the balance is checked before the key is looked up |
| `CreditLedger.ReserveCredits` | src/services/core-facets/CreditLedgerFacet.ts:183-204 | The same for reservations; the key is looked up before the balance is checked |
| `CreditLedger.ConsumeReservedCredits` | src/services/core-facets/CreditLedgerFacet.ts:206-227 | The same for consumption of reserved credits |
| `CreditLedger.ReleaseReservedCredits` | src/services/core-facets/CreditLedgerFacet.ts:229-250 | The same for releases |
| `CreditLedger.RecordPurchasedCredits` | src/services/core-facets/CreditLedgerFacet.ts:252-269 | The same for purchases, which check no balance |
| `CreditLedger.GrantInitialRegistrationBonus` | src/services/core-facets/RegistrationCreditFacet.ts:79-115 | The same for the five-credit bonus under its derived key |
| `CreditTotals.CallMovesItsScopes` | src/services/core-facets/CreditLedgerFacet.ts:105-269 | A call that writes moves the available and reserved sums, the totals and the entry count of its own user and tenant by what it was asked for (five for the bonus), and no other scope |
| `CreditTotals.TotalsAreWhatWasAsked` | src/services/core-facets/CreditLedgerFacet.ts:380-422 | Over every run: each balance, total and count that a scope reports is the sum of the amounts asked for there by the calls that wrote |
| `CreditTotals.WritesIff` | src/services/core-facets/CreditLedgerFacet.ts:105-269 | A call writes iff its amount and key are well formed, its tenant exists, its key is new in the tenant and its own scope covers it |
| `CreditTotals.RetryIsAnsweredIff` | src/services/core-facets/CreditLedgerFacet.ts:127-204 | A call whose key is in the ledger is answered with a row of that key; only an administrator's debit is refused when its scope no longer covers it |
| `CreditTotals.ShortIff` | src/services/core-facets/CreditLedgerFacet.ts:140-246 | A new call is refused for lack of available or of reserved credits exactly when it is well formed and its own scope does not cover it |
| `RegistrationSaga.ConsumeForRegistration` | src/services/core-facets/RegistrationCreditFacet.ts:61-77 | Reserve, then consume under the key plus `:consume`, then summary; it stops where the first refusal leaves the ledger |
| `RegistrationSaga.RegisterDependent` | src/services/core-facets/TenantUserFacet.ts:357-394 | Reserve, work, consume; when the work or the consume fails, release, and ignore what the release answers |
| `RegistrationSaga.ReservedCountsPendingKeys` | src/services/core-facets/RegistrationCreditFacet.ts:61-77 | Under any interleaving of both kinds of saga, crashes, failures, releases, retries and unrelated calls: a user's reserved sum is the number of that user's plans that hold a reservation less those both consumed and released, and just the former where nothing is released; the consumed total is the number of plans consumed |
| `RegistrationSaga.ConsumeGoesThroughIff` | src/services/core-facets/TenantUserFacet.ts:376-384 | An attempt that got its reservation gets through its consume iff the consume was made before or fewer of the user's plans were both consumed and released than hold a reservation |
| `RegistrationSaga.ConsumeNeverLacksItsReservation` | src/services/core-facets/CreditLedgerFacet.ts:206-227 | While no plan of the user was both consumed and released, and always where nothing is released, a saga that reserved and was not released gets through its consume, however often retried |
| `RegistrationSaga.RetryAfterReleaseSpendsAnother` | src/services/core-facets/TenantUserFacet.ts:385-392 | A retry after a release holds no reservation: its consume is refused or spends that of another plan of the user, as decided by whether one is left |
| `RegistrationSaga.RetryStarvesAnother` | src/services/core-facets/TenantUserFacet.ts:357-394 | A run in which the retry of a released plan consumes and a second plan, which only reserved, is refused its consume |
| `RegistrationSaga.CompletedSagaSpendsOneCredit` | src/services/core-facets/RegistrationCreditFacet.ts:61-77 | The rows of a completed saga take exactly one credit from the available sum and leave nothing reserved, unless it was released as well: then they take nothing, and one reservation too many |
| `RegistrationSaga.RegistrationsDisciplinedIff` | src/services/core-facets/RegistrationCreditFacet.ts:61-77 | Registration keys meet the discipline of the runs iff their users are real, a key serves one of them in its tenant, and none is another plus `:consume` |
| `RegistrationSaga.DependentsAreDisciplined` | src/services/core-facets/TenantUserFacet.ts:345-348 | Dependent registrations meet it as soon as each has a base key of its own in its tenant |
| `RegistrationSaga.FirstRegistration` | src/services/core-facets/RegistrationCreditFacet.ts:61-77 | A first registration under unused keys succeeds iff the user has a credit; it takes that credit, or leaves every balance and total of the user as it was |
| `RegistrationSaga.FirstDependent` | src/services/core-facets/TenantUserFacet.ts:357-394 | A dependent's first registration succeeds iff the user has a credit and the work succeeds; failed work gives the credit back, and without a credit nothing is written |
| `QTagProofs.OrdersAgreeWithLedger` | src/services/core-facets/QTagFulfillmentFacet.ts:226-298 | After every orderly serial run, each scope's reserved count is the number of its orders in REQUESTED, ENCODING_IN_PROGRESS or ENCODING_FAILED; each order has one RESERVED row, one CONSUMED row iff ACTIVATED, one RELEASED row iff CANCELLED |
| `QTagProofs.CallKeepsInv` | src/services/core-facets/CommissioningFacet.ts:187-256 | Every orderly call keeps ledger, orders and open encoding sessions in step, refused and half-failed calls included |
| `QTagProofs.SuccessfulConfirmOutcome` | src/services/core-facets/CommissioningFacet.ts:197-247 | A successful confirm of an open session either finishes with one CONSUMED row and an ACTIVATED order, or stops at the asset link with order and ledger untouched |
| `QTagProofs.EncodingOrderCanBeConsumed` | src/services/core-facets/QTagFulfillmentFacet.ts:376-400 | While an order is being encoded its reservation is there: the consume is never refused |
| `QTagProofs.EndedOrdersStayAsTheyAre` | src/services/core-facets/QTagFulfillmentFacet.ts:317-325 | ACTIVATED and CANCELLED are final: no later call of an orderly run changes such an order |
| `QTagAssets.AssetsHaveOneLiveOrder` | src/services/core-facets/QTagFulfillmentFacet.ts:236-246 | Over every orderly run an asset has at most one order of its tenant that is neither cancelled nor expired |
| `QTagAssets.ActivatedAssetsCarryTheirOwnDevice` | src/services/core-facets/CommissioningFacet.ts:197-247 | Over every run, orderly or not, from untagged assets: the asset of an ACTIVATED order carries a device that exists and is active, and no device is linked to two assets |
| `QTagAssets.ReserveCreatesIff` | src/services/core-facets/QTagFulfillmentFacet.ts:224-234 | For an asset that could be reserved, a reservation creates an order iff its key is new; otherwise it answers without an error and changes nothing |
| `QTagAssets.ReleasedAssetStaysUnreserved` | src/services/core-facets/QTagFulfillmentFacet.ts:224-234 | Once an asset was reserved under its default key and released, no orderly run of default-key reservations ever gives it an order again |
| `QTagAssets.ReleasedAgainIff` | src/services/core-facets/QTagFulfillmentFacet.ts:310-347 | A cancelled order released again under a fresh key of the caller's goes through iff the scope has another reservation; then it has two RELEASED rows and the agreement is off by one |
| `QTagBalances.BalancesNeverNegative` | src/services/core-facets/QTagFulfillmentFacet.ts:248-251 | Over every run of calls and interrupted confirms, orderly or not, no real user has less than zero tags available or reserved |
| `QTagBalances.AvailableIsFundedLessOrders` | src/services/core-facets/QTagFulfillmentFacet.ts:253-280 | Over every orderly or interrupted run: what a scope has available is what was purchased and granted there, less one for every order that is not cancelled |
| `QTagBalances.FundedIsWhatWasAsked` | src/services/core-facets/QTagFulfillmentFacet.ts:119-201 | Over every run: the purchased and granted totals of a scope are the sums of the quantities asked for there by the calls that wrote |
| `QTagDevices.ActivatedCarryTheirSessionsUid` | src/services/core-facets/CommissioningFacet.ts:179-246 | Over every orderly or interrupted run: the asset of an ACTIVATED order carries the uid of a COMPLETED session of that order, and belongs to the order's tenant |
| `QTagDevices.DevicesHoldTheLastKeys` | src/services/core-facets/CommissioningFacet.ts:197-211 | Over every run: a device exists exactly for the uids some session was confirmed for, is active, and holds the keys of the session last confirmed for its uid |
| `QTagDevices.ActivationTakesAnAcceptedConfirm` | src/services/core-facets/CommissioningFacet.ts:175-185 | Over every run: an order is ACTIVATED only by a confirm of a session of its own, by that session's tenant and for its uid, that reports success and at least 144 bytes |
| `QTagConditions.FundGoesThroughIff` | src/services/core-facets/QTagFulfillmentFacet.ts:119-201 | A grant or confirmed purchase is written iff its quantity is positive, its tenant exists, its key is new, and a purchase has a key that is not blank |
| `QTagConditions.ReserveGoesThroughIff` | src/services/core-facets/QTagFulfillmentFacet.ts:210-280 | A reservation creates its order iff the tenant exists, the asset is its own and untagged, the key is new, no other order of the asset is live and the user has a tag |
| `QTagConditions.StartGoesThroughIff` | src/services/core-facets/CommissioningFacet.ts:44-71 | A session starts iff the uid is fourteen hexadecimal digits and the named order, if any, is the tenant's, for this asset and waiting to be encoded; the session keeps what it was started with |
| `QTagConditions.ReleaseGoesThroughIff` | src/services/core-facets/QTagFulfillmentFacet.ts:310-347 | A release cancels iff the order is the tenant's and not ACTIVATED, the key is new and the order's user has a reserved tag |
| `QTagConditions.ConfirmDecidesIff` | src/services/core-facets/CommissioningFacet.ts:175-256 | A confirm of an open session activates its order iff it is by its tenant, for its uid, successful and complete and no other asset carries the uid; it fails the order iff it is by its tenant, for its uid and unsuccessful |
| `QTagConditions.RefusedCallsChangeNothing` | src/services/core-facets/QTagFulfillmentFacet.ts:119-374 | A refused call other than a confirm leaves every table as it was |
| `QTagConditions.TaggedAssetsAreLeftAlone` | src/services/core-facets/QTagFulfillmentFacet.ts:220-222 | Over every run an asset that carries a device from the start is never ordered a tag and keeps its device |
| `QTagConditions.AttemptsNumberTheSessions` | src/services/core-facets/CommissioningFacet.ts:134-148 | Over every orderly or interrupted run an order counts its sessions, which are numbered from one to its attempts |
| `QTagInterrupted.InterruptedRunsAgree` | src/services/core-facets/CommissioningFacet.ts:187-247 | Over every run that mixes calls, confirms stopped after any write and their repetitions: reserved counts are those of the held orders whose confirm has not reached the ledger, a half-confirmed order waits in ENCODING_IN_PROGRESS with its one CONSUMED row, every other order agrees with its rows |
| `QTagInterrupted.FinishedRunsAgree` | src/services/core-facets/CommissioningFacet.ts:187-247 | When no confirm is left half done after such a run, orders, ledger and sessions agree in full |
| `QTagRecovery.ConfirmSurvivesCrashes` | src/services/core-facets/CommissioningFacet.ts:187-247 | Stopped any number of times after whichever of its five writes and then run to the end, a confirm leaves exactly the tables of one uninterrupted run |
| `QTagRecovery.CrashedConfirmConsumesOnce` | src/services/core-facets/QTagFulfillmentFacet.ts:376-379 | A crashed and repeated confirm of an order writes exactly one ledger row, the one CONSUMED row of the order |
| `QTagRecovery.RedoneWrites` | src/services/core-facets/CommissioningFacet.ts:189-247 | Repeating the first n writes after k were done leaves the longer of the two prefixes |
| `QTagRecovery.ReleaseBeforeTheRerun` | src/services/core-facets/QTagFulfillmentFacet.ts:312-355 | If the order is released between the crash and the re-run, the re-run goes through exactly when the scope holds another reservation, and then activates an order that is already cancelled |
| `QTagFacets.Database.GrantQTags` | src/services/core-facets/QTagFulfillmentFacet.ts:119-167 | Takes exactly the step of the order/ledger machine, tables and error alike |
| `QTagFacets.Database.PurchaseConfirmed` | src/services/core-facets/QTagFulfillmentFacet.ts:169-201 | The same for confirmed purchases |
| `QTagFacets.Database.ReserveForAsset` | src/services/core-facets/QTagFulfillmentFacet.ts:203-299 | The same for reservations, and when the answer is a repetition: order and ledger row appear together or not at all |
| `QTagFacets.Database.ReleaseReservation` | src/services/core-facets/QTagFulfillmentFacet.ts:301-374 | The same for releases, under the default key or the caller's, and when the answer is a repetition |
| `QTagFacets.Database.ConsumeReservation` | src/services/core-facets/QTagFulfillmentFacet.ts:376-400 | The same for the consume step of a confirm |
| `QTagFacets.Database.Start` | src/services/core-facets/CommissioningFacet.ts:41-163 | The same for the start of an encoding session |
| `QTagFacets.Database.Confirm` | src/services/core-facets/CommissioningFacet.ts:168-259 | The five writes in source order, each stopping where the machine stops |
| `DeviceGuardInterleaved.TapsAreLinearizable` | src/services/core-facets/DeviceGuardFacet.ts:35-156 | Under any interleaving of taps, judging them one by one with an atomic check-and-set in the order of their deciding accesses gives the same verdicts, stored counter and tap count |
| `DeviceGuardInterleaved.LinearizationRespectsRealTime` | src/services/core-facets/DeviceGuardFacet.ts:35-156 | A tap finished before another arrives is judged before it |
| `DeviceGuardInterleaved.DecisionIsAtomic` | src/services/core-facets/DeviceGuardFacet.ts:103-125 | The access that decides a tap gives the verdict, counter, count and log row of the atomic check at that instant |
| `DeviceGuardInterleaved.ValidCountersNeverRepeat` | src/services/core-facets/DeviceGuardFacet.ts:103-156 | VALID log counters strictly increase from the initial counter, the stored counter is the last of them, and the tap count grows by their number |
| `DeviceGuard.ValidateAndRecordTap` | src/services/core-facets/DeviceGuardFacet.ts:28-156 | The verdict, counter, count and log of one tap while other taps update the device between its stale read and its conditional update |
| `DeviceGuard.Device.ConditionalUpdate` | src/services/core-facets/DeviceGuardFacet.ts:105-134 | Advances the counter, counts and logs the tap exactly when the stored counter is behind |
| `DeviceGuard.AcceptedIncrease` | src/services/core-facets/DeviceGuardFacet.ts:66-75 | One after another, accepted counters strictly increase and the last one is stored |
| `DeviceVerdicts.VerdictsAreDeserved` | src/services/core-facets/DeviceGuardFacet.ts:66-120 | Under any interleaving each settled tap has one access at which it got the verdict due for the counter stored then: a replay if its counter is not ahead, whatever its code; else bad code or valid; and the counter moved exactly when valid |
| `DeviceVerdicts.FinishedTapsAreLogged` | src/services/core-facets/DeviceGuardFacet.ts:122-156 | Under any interleaving the log has one row for each finished tap, with its counter and verdict |
| `AnchorProofs.AnchoredIsForever` | src/services/AnchorQueueService.ts:104-163 | Under any interleaving of anchor workers, retry workers and crashes, an event with a real transaction id never again has none, PROCESSING or RETRY_QUEUED |
| `AnchorProofs.EventsAreHeldByOneWorker` | src/services/AnchorQueueService.ts:21-71 | Between claim and outcome write an event is held by one anchor worker only, once, and cannot be claimed |
| `AnchorProofs.RowsAreExecutedByOneWorker` | src/services/RetryWorker.ts:75-90 | A pending transaction is executed by at most one retry worker, and is then locked against the others |
| `AnchorProofs.ClosedRowsStayAsTheyAre` | src/services/RetryWorker.ts:92-135 | SUCCESS and DLQ rows never change again, whatever any number of workers do |
| `AnchorRewrites.TxIdCanChangeIff` | src/services/AnchorQueueService.ts:104-152 | An event anchored in any reachable state can get another transaction id, without a new request to retry it, iff an anchor worker holds it that has not yet marked it for retry, or a retry row of it is open or executing |
| `AnchorRewrites.AnchoredTwice` | src/services/AnchorQueueService.ts:34-34 | At-most-once anchoring is false: a run in which a RETRY_QUEUED event is anchored by a retry worker and then again by an anchor worker |
| `AnchorRewrites.AnchoredTwiceByOneRetrier` | src/services/RetryWorker.ts:104-109 | One retry worker suffices: an event that failed to anchor twice has two retry rows, and both are executed |
| `AnchorServices.GroupByChain` | src/services/AnchorQueueService.ts:90-96 | The chains in order of first appearance, each with its events in batch order, hold every event of the batch exactly once under its tenant's normalized chain |
| `AnchorServices.SelectedAreClaimable` | src/services/AnchorQueueService.ts:29-54 | The claimed batch lists distinct events, all claimable and wanted, and none of the scanned ones that qualify is missing |
| `AnchorServices.SelectedComeFirst` | src/services/AnchorQueueService.ts:36-37 | What a scan of the id index from its start selects is in ascending order and comes before everything else that qualifies |
| `AnchorServices.EveryEventGetsItsAnswer` | src/services/AnchorQueueService.ts:104-163 | A batch left undisturbed: each event ends as its own chain answer says, every other event is unchanged, and exactly the other failures get a retry row |
| `AnchorServices.Database.ClaimEvents` | src/services/AnchorQueueService.ts:15-71 | Claims the first qualifying events in ascending id order, up to the clamped limit, and marks exactly those |
| `AnchorServices.Database.AnchorOne` | src/services/AnchorQueueService.ts:104-163 | The try/catch body: unconditional write on success, conditional writes and the retry row on failure |
| `AnchorServices.Database.ProcessQueue` | src/services/AnchorQueueService.ts:14-168 | Claim, grouping and outcomes of an undisturbed batch: the final state of every event, the retry rows and the reported items |
| `AnchorServices.Database.HandleFailure` | src/services/RetryWorker.ts:238-301 | Dead letters on a critical error or the last attempt, otherwise FAILED with the capped exponential delay |
| `AnchorServices.Database.RetryOne` | src/services/RetryWorker.ts:90-135 | One executed row: its new state, the event it anchors, and the counter it raises |
| `AnchorServices.Database.ProcessRetries` | src/services/RetryWorker.ts:45-144 | An undisturbed fetched batch: every row settled by its own outcome, no other row touched, and the three counters (a row dead-lettered by a thrown error counts as failed) |
| `AnchorErrors.CriticalIff` | src/services/RetryWorker.ts:26-39 | A message is critical iff one of the twelve phrases stands somewhere in it, in any mixture of capitals |
| `AnchorErrors.CaseNeverMatters` | src/services/RetryWorker.ts:229-232 | Messages that differ in case only are judged alike |
| `AnchorErrors.TextAroundNeverMatters` | src/services/RetryWorker.ts:231-231 | Whatever stands before and after a phrase, the message is critical |
| `AnchorErrors.LacksFundsIff` | src/services/AnchorQueueService.ts:129-129 | An event returns to wait for funds iff the message has "Insufficient funds" or "PENDING_FUNDS" in it, letter by letter |
| `AnchorErrors.SmallLetterLosesTheWait` | src/services/AnchorQueueService.ts:129-152 | "insufficient funds" does not return the event to wait, and the retry worker gives its transaction up at the first failure |
| `AnchorErrors.ExecutionDecides` | src/services/RetryWorker.ts:92-125 | How an execution leaves its row: SUCCESS iff it succeeded and an anchored event is there, DLQ iff it failed for good or for the last time, otherwise FAILED until the capped wait is over |
| `AnchorErrors.DueFrom` | src/services/RetryWorker.ts:51-62 | A settled row can be fetched again exactly when it FAILED and from the end of its wait on; a new row at once |
| `AnchorErrors.FiveFailuresAreTheEnd` | src/services/RetryWorker.ts:251-284 | A queued row waits one, two, four and eight minutes after its first four failures and is dead after the fifth |
| `AnchorErrors.FinalFailureIsForGood` | src/services/RetryWorker.ts:119-121 | Under any interleaving, a row whose execution fails with one of the phrases is DLQ right after it, never changes again and is never executed again |
| `AnchorRouting.LimitIsClamped` | src/services/AnchorQueueService.ts:15-15 | A batch takes at most what was asked for, between one and fifty, and ten by default |
| `AnchorRouting.BatchIsWhatWasAskedFor` | src/services/AnchorQueueService.ts:22-54 | A scanned event is in the batch iff it is approved or waiting for funds, signed, in nobody's hands, and of the tenant and asset asked for; the batch carries its row |
| `AnchorRouting.OtherTenantsAreLeftAlone` | src/services/AnchorQueueService.ts:22-34 | A batch asked for by one tenant leaves every other tenant's events as they are, whatever the chains answer |
| `AnchorRouting.NameIsTheTrimmedCapitals` | src/services/AnchorQueueService.ts:92-92 | A chain's name is what stands between any white space, in capitals |
| `AnchorRouting.PaddingAndCaseNeverMatter` | src/services/AnchorQueueService.ts:92-92 | Padding a chain's name or changing its case never changes where its events go |
| `AnchorRouting.EventsGoToTheirTenantsChain` | src/services/AnchorQueueService.ts:80-96 | An event goes to its tenant's chain, and to Stellar when the tenant has none |
| `AnchorRouting.GroupsAscend` | src/services/AnchorQueueService.ts:90-96 | The events of a chain are exactly the batch's events routed to it, in the order of their ids |
| `AnchorRouting.ChainsInOrderOfAppearance` | src/services/AnchorQueueService.ts:90-104 | Chains are worked off in the order in which the batch first reaches them |
| `AnchorRouting.BouncedEventsAreQueued` | src/services/AnchorQueueService.ts:134-147 | The retry rows of a batch are those of the events refused for anything but lack of funds, one each and in order, on the chain they were meant for |
| `AnchorRefinement.ProcessQueueIsARun` | src/services/AnchorQueueService.ts:14-168 | The whole of `processQueue`, groups and all, is a run of the interleaved machine that leaves the tables the service leaves |
| `AnchorRefinement.AnchoringTurnIsARun` | src/services/AnchorQueueService.ts:104-163 | So is each turn of its loop: same tables, worker moved to its next event |
| `AnchorRefinement.ClaimIsAStep` | src/services/AnchorQueueService.ts:21-71 | The claiming transaction is one enabled step, in whatever order the worker takes up its batch |
| `AnchorRefinement.ProcessRetriesIsARun` | src/services/RetryWorker.ts:45-144 | The whole of `processRetries` is a run of the machine that leaves the tables the service leaves |
| `AnchorRefinement.RetryTurnIsARun` | src/services/RetryWorker.ts:75-135 | So is each turn of its loop, whether the lock is won or lost |
| `AnchorRefinement.FetchIsAStep` | src/services/RetryWorker.ts:51-65 | The fetch is one enabled step |
| `AnchorRefinement.LeadsIsARun` | src/services/RetryWorker.ts:75-135 | A trace of enabled steps is a run of the machine, so every theorem about runs holds of it |
| `RetryBackoff.AttemptsAreBounded` | src/services/RetryWorker.ts:251-287 | With one retry worker a row is executed at most `maxAttempts` times, an open row has attempts left, and `attemptCount` counts failures until the row closes and executions afterwards |
| `RetryBackoff.ExecutionsAreSpaced` | src/services/RetryWorker.ts:279-295 | With one retry worker, execution m + 1 starts no earlier than the first failure plus the first m delays |
| `RetryBackoff.RetryingEnds` | src/services/RetryWorker.ts:92-135 | Finished executions plus remaining attempts never exceed the initial attempts plus those of new rows: a termination measure |
| `RetryBackoff.DelayIsCappedFromTheSeventh` | src/services/RetryWorker.ts:281-284 | The delay equals the hour cap exactly from the seventh failure on and doubles from a minute before |
| `RetryBackoff.FiveAttemptsWaitAtMostEightMinutes` | src/services/RetryWorker.ts:11-15 | With the default five attempts no wait exceeds eight minutes: the documented fifth delay is never used |
| `RetryLimit.LimitHoldsIff` | src/services/RetryWorker.ts:251-254 | No row is ever executed more than `maxAttempts` times, in any run of a given set of retry workers, iff the limit is one or at most one worker retries |
| `RetryLimit.TwoRetriersExceedTheLimit` | src/services/RetryWorker.ts:251-251 | For every limit of at least two, two workers have a run of limit + 1 executions, because the second counts from its stale snapshot |
| `RetryLimit.NWorkersExecuteNTimes` | src/services/RetryWorker.ts:251-251 | n workers that fetched one fresh row execute it n times, and it still counts one attempt |
| `Crc16.ComputeCrc16` | src/services/QTagCryptoService.ts:164-173 | For every byte sequence the 32-bit loop masked at the end yields the 16-bit-register CRC-16/CCITT-FALSE |
| `Crc16.WideShiftIsShift` | src/services/QTagCryptoService.ts:167-171 | One turn of the inner loop on the unmasked register is one shift of the 16-bit register |
| `Crc16.SealedBlockChecks` | src/services/QTagCryptoService.ts:146-149 | For data of any length the CRC over the data followed by its own CRC is zero |
| `Crc16.ShortErrorsAreDetected` | src/services/QTagCryptoService.ts:146-149 | Any change confined to one byte or two adjacent bytes of a sealed block, CRC bytes included, makes the CRC non-zero |
| `Crc16.CheckValue` | src/services/QTagCryptoService.ts:164-173 | The digits one to nine give 0x29B1, the check value of CRC-16/CCITT-FALSE |
| `NtagLayout.BuildNtagLayout` | src/services/QTagCryptoService.ts:135-152 | The buffer writes produce the layout that the field lemmas speak about |
| `NtagLayout.FieldsReadBack` | src/services/QTagCryptoService.ts:135-152 | For the regular field sizes every field reads back from its offset, all reserved bytes are zero and the metadata block checks |
| `NtagLayout.DamagedMetadataIsSeen` | src/services/QTagCryptoService.ts:146-149 | A tag whose metadata block differs in one byte or two adjacent bytes fails the CRC |
| `NtagLayout.LayoutToPages` | src/services/QTagCryptoService.ts:155-161 | 36 pages, page i encoding bytes 4i to 4i+3 |
| `NtagLayout.PagesJoinToLayout` | src/services/QTagCryptoService.ts:155-161 | Joining the decoded pages gives back the layout |
| `NtagLayout.MacInputIsThePlaintextHead` | src/services/QTagCryptoService.ts:41-62 | The MAC input rebuilt from the decoded uid and counter is the first ten plaintext bytes |
| `NtagLayout.CounterIsLowByteFirst` | src/services/QTagCryptoService.ts:41-52 | The counter is bytes 7 to 9 read low byte first, the uid the seven bytes before |
| `RateLimiter.Limiter.Handle` | src/server.ts:100-121 | Decides and updates as the fixed-window specification says |
| `RateLimiter.Limiter.CleanUp` | src/server.ts:124-129 | Removes exactly the expired entries |
| `RateLimiter.SweepsChangeNoDecision` | src/server.ts:124-129 | With a clock that never runs backwards a limiter swept at any times decides as one never swept |
| `RateLimiter.AtMostTwiceMaxMinusOne` | src/server.ts:100-121 | At most 2 * max - 1 requests of an ip are accepted in any closed interval of one window's length |
| `RateLimiter.BoundIsReached` | src/server.ts:105-107 | The bound is sharp: for every max a run accepts 2 * max - 1 |
| `RateLimiter.LimitsPerMinute` | src/server.ts:196-213 | 399 in a closed minute on the global limiter, 59 on the scan limiter |
| `RateLimiter.RetryAfterWaitSufficesIff` | src/server.ts:110-112 | Waiting exactly the advertised seconds suffices iff the remaining time was not a whole number of seconds |
| `RateWindows.DecisionIsTheWindows` | src/server.ts:100-121 | Over every run with a clock that never runs backwards, swept or not: a request is refused iff the minute opened by its ip's accepted requests is still running and has taken in max of them |
| `RateWindows.RefusedOnlyAfterMax` | src/server.ts:105-117 | A request is refused only if max requests of its ip were let through in the last minute |
| `RateWindows.RefusalsLeaveNoTrace` | src/server.ts:110-117 | Leaving any refused requests out of a run changes no other decision |
| `RateWindows.SweepRemovesTheExpired` | src/server.ts:124-129 | A sweep removes exactly the entries whose window is over |
| `DepositScanner.ScansTileIff` | src/services/BlockchainObserverService.ts:198-200 | With non-decreasing heads the scanned ranges tile the interval from the first head minus 99 to the latest head, without gap or overlap, iff each head is at most 501 above the previous one, a previous head of 0 counting as none |
| `DepositScanner.ExactlyOneDepositPerHash` | src/services/BlockchainObserverService.ts:219-249 | Over any run of scans, failed ones included, every matching transaction hash in the tiled interval has exactly one deposit and every deposit is a matching transfer |
| `DepositScanner.EveryTransferHasItsDepositIff` | src/services/BlockchainObserverService.ts:411-437 | Over any run of scans with close heads, the matching transfers of the tiled interval have a deposit each, of their own and with their own amount, iff no two of them were made by one transaction |
| `DepositScanner.TwoTransfersOneDeposit` | src/services/BlockchainObserverService.ts:430-433 | Two transfers of one transaction leave a single deposit, for the first of them |
| `DepositScanner.Observer.UpsertDeposit` | src/services/BlockchainObserverService.ts:411-437 | Inserts a deposit and reports it new exactly when its hash is unknown |
| `DepositScanner.Observer.ScanEVMChain` | src/services/BlockchainObserverService.ts:194-249 | One scan: the deposits of the range or of the part seen before something threw, the last scanned block only if nothing threw, the count of new deposits |
| `AssetEscrow.CallKeepsAgreementIffProper` | src/services/core-facets/EscrowFacet.ts:70-250 | From agreeing tables, a call keeps them in agreement iff a lock that reaches the chain succeeds there and a release or cancel that goes through names the escrow's own asset |
| `AssetEscrow.LockedIffOneOpenEscrow` | src/services/core-facets/EscrowFacet.ts:70-115 | Over every serial run of such calls an asset is LOCKED_IN_ESCROW exactly when one open escrow names it, and otherwise none does |
| `AssetEscrow.EndStatesAreFinal` | src/services/core-facets/LifecycleFacet.ts:18-24 | RELEASED and CANCELLED escrows never reopen; BURNED and ARCHIVED assets never leave those states |
| `AssetEscrow.NamingAnotherAssetRevivesIt` | src/services/core-facets/EscrowFacet.ts:182-190 | A release naming another asset can turn a burned asset ACTIVE |
| `EscrowAccess.OthersNeverTouchEscrow` | src/services/core-facets/EscrowFacet.ts:144-150 | Over every run of other tenants' calls a tenant's escrow stays as it is |
| `EscrowAccess.OthersNeverTouchAsset` | src/services/core-facets/EscrowFacet.ts:63-69 | Over every run of other tenants' calls in which no release or cancellation names it a tenant's asset stays as it is |
| `EscrowAccess.ForeignCallChangesAssetIff` | src/services/core-facets/EscrowFacet.ts:187-190 | Another tenant's call changes an asset iff it closes an escrow of its own, names this asset and the asset is not ACTIVE already |
| `EscrowAccess.ForeignAssetCanBeActivated` | src/services/core-facets/EscrowFacet.ts:187-190 | A tenant lifts another tenant's suspension by releasing an escrow of its own |
| `EscrowAccess.ForeignLooksMissing` | src/services/core-facets/EscrowFacet.ts:217-223 | Another tenant's escrow or asset is answered as one that does not exist, and nothing changes |
| `EscrowAccess.CloseDecidesIff` | src/services/core-facets/EscrowFacet.ts:136-250 | A release or cancellation closes the escrow iff it is the tenant's own and open, the chain agrees, and a release comes from an administrator or operator in MANUAL mode, a cancellation from an administrator; what it changes |
| `EscrowAccess.WorkerDecidesIff` | src/services/EscrowReleaseWorker.ts:11-52 | The worker releases an escrow iff it is AUTO, open and due, the chain agrees and its asset exists, and otherwise changes nothing |
| `EscrowAccess.ClosedByOneWhoMay` | src/services/core-facets/EscrowFacet.ts:136-260 | Over every run an open escrow that ends up closed was closed by its own tenant with the role and mode it takes, or by the worker once it was due |
| `EscrowAccess.LockDecidesIff` | src/services/core-facets/EscrowFacet.ts:54-112 | A lock creates its escrow iff an administrator or operator asks for an ACTIVE asset of the own tenant, a time to come and a new id; the asset is locked iff the chain agrees |
| `EscrowAccess.MoveDecidesIff` | src/services/core-facets/LifecycleFacet.ts:18-74 | A transition, transfer or approved payment moves the asset iff it is the tenant's own and the move is one of those its status and role allow |
| `AssetEscrow.Database.LockEscrow` | src/services/core-facets/EscrowFacet.ts:51-134 | Checks, escrow row, chain call, asset status, in that order, tables and outcome alike |
| `AssetEscrow.Database.ReleaseEscrow` | src/services/core-facets/EscrowFacet.ts:136-208 | The same for releases by an API key or by the worker |
| `AssetEscrow.Database.CancelEscrow` | src/services/core-facets/EscrowFacet.ts:210-267 | The same for cancellations |
| `AssetEscrow.Database.ReleaseOne` | src/services/EscrowReleaseWorker.ts:28-58 | Mark, release, revert: the marking is invisible once the turn is over |
| `AssetEscrow.Database.FetchExpired` | src/services/EscrowReleaseWorker.ts:11-19 | At most ten due escrows, in the order they unlock, and none left out that unlocks before one of them |
| `AssetEscrow.Database.ProcessReleases` | src/services/EscrowReleaseWorker.ts:8-62 | The loop over a batch is the run of its turns; `released` counts exactly those that were released |
| `AssetEscrow.Database.TransitionAsset` | src/services/core-facets/LifecycleFacet.ts:34-76 | The guarded status change of the transition table |
| `AssetEscrow.Database.StartTransfer` | src/services/core-facets/TransferRegistryFacet.ts:45-73 | ACTIVE to AWAITING_PAYMENT, or a refusal that changes nothing |
| `AssetEscrow.Database.ConfirmPayment` | src/services/core-facets/BillingFacet.ts:76-85 | AWAITING_PAYMENT to ACTIVE, and nothing otherwise |

## Left out

- Authorization, actor and reason checks, audit logs, webhooks and descriptive columns: they change no modelled table.
- 32-bit integer columns and non-integer amounts: the model's integers are unbounded and `Number.isInteger` is taken as given.
- AES, CMAC, HKDF, SHA3, Falcon and key wrapping: opaque; base64 and hex are assumed lossless codecs. `haversineCheck` and the CMAC's byte selection are not modelled.
- Concurrent ledger calls and concurrent calls on orders, escrows and assets: those runs are serial; only sagas, taps and queue workers interleave.
- `transitionFulfillmentStatus`: it can move an order almost freely, so the agreement does not cover it. Caller-chosen release keys are modelled, and outside the agreement because they can release an order twice.
- Status REFUNDED, EXPIRED and other ledger entry types no modelled call writes, and asset creation or `updateAsset`, which can set any status.
- QTagFacets.Database.Start: does not model the event row, the signature and the layout that the call also produces; an empty order id is stored as no order.
- QTagFacets.Database.Confirm: does not model the timestamps it writes.
- QTagFacets.Database.ReserveForAsset: does not say which order a repeated call returns, the latest of the asset, because creation times are not modelled.
- AnchorServices.Database.ProcessQueue: speaks of a batch no other worker touches meanwhile; disturbed batches are runs of the interleaved machine.
- AnchorServices.Database.ProcessRetries: likewise.
- Foreign keys other than the ledger's tenant, and the order id of a ledger row.
- Upper-casing of chain names beyond ASCII, and unsupported chains, whose exception stops a batch: in the interleaved machine that is a crash.
- `processRetries` reads the clock once per failed row; in the interleaved machine that reading and the failure write are one instant.
- Duplicate-key inserts that PostgreSQL reports late under concurrency, and rows that SKIP LOCKED passes over: the claim step may take any set of claimable events.
- The Algorand and Stellar scanners, confirmation counting and the transfer parser of the observer: the query answers the matching transfers of a stable chain.
- The billing inbox, the owner records of a transfer and the quarantine of assets.
- Starvation freedom of the anchor queue: a crashed worker's batch stays PROCESSING and the code does not recover it.
