# LiquidLane core in Dafny

LiquidLane sells receive capacity in Fiber payment channels. This project models the parts of its core whose
correctness spans many operations and proves what they promise over every input, every reachable state and
every run.

**Native settlement proof** (`SettlementGraph`, `Settlement`, `SettlementSoundness`). A spent channel is
resolved when the transactions its funding spend leads to, through commitment outputs only, have put every
output into a wallet. The summary of a set of committed transactions has an order-free meaning in terms of
reachability; the worklists of the checker and of the discoverer are proved to compute it. A confirmed proof
shows a part of the history that is provably everything: nothing outside it can belong to the settlement.
`ConfirmedExample` is one. Discovery succeeds exactly when what there is to look at fits its limits. A claim's
pending outpoints are compared as the ordered list they arrive in (`TextOrder`).

**Liquidity ledger** (`Accounting`, `AccountingLaws`, `LiveSync`, `Ledger`, `LedgerStore`, `LedgerTieOut`,
`LedgerEffects`, `LedgerTotals`, `LedgerIntents`, `LedgerBreaks`). Greedy loops over an array of positions
move amounts between buckets and split a lease fee; each equals a closed form in prefix sums. Requests,
reservations and positions are tied together by an invariant, and for every operation the exact condition
under which it keeps the invariant is proved. Three conditions can fail in the code, and `LedgerBreaks` holds
a run from empty books to each: a handoff committed on a finished or already open request, a create that finds
less in the positions than the live cell promises, and a live cell that diverges from the reservations. A
request that settles a signed intent is stored whatever the positions hold, because the live cell may already
count it; `LedgerIntents` shows that this works out only when it takes the last of the supply, that otherwise
more is reserved than is booked, and that the next live cell puts it right. `LedgerEffects` says what each
operation comes to, request by request and bucket by bucket, and `LedgerTotals` accounts for supply and fees
over whole runs.

**Marketplace orders** (`OutpointText`, `Market`, `MarketDb`, `MarketSafety`, `MarketTheorems`,
`MarketCauses`, `MarketParties`, `MarketAdmission`, `MarketAuthorization`, `MarketBypass`). Handlers run as
transactions on tables. A handler that checks something slow outside its transaction is split into a read that
starts a flight and a commit that may land after any other steps, twice, or never; every step reads its own
clock. Over all such runs: no overselling while a node's record stands, one outstanding order per account and
provider node, a lifecycle that only moves forward, exclusive references, real and different parties, and no
closure hidden by the other peer. For each status there is exactly one condition under which an order comes to
it. One property fails: an order can be delivered that its provider never signed and its merchant never
proved. `AlwaysAuthorizedIff` says exactly which step lets that happen, and `DeliveredUnauthorized` is a run
from the empty tables that ends there.

**Connector** (`Budget`, `BudgetLaws`, `BudgetBounds`, `Opening`, `OpeningSafety`, `OpeningBudget`,
`OpeningRules`, `OpeningWorker`). The exposure figure is conservative, an exact order-free sum, and free again
exactly when the chain shows everything settled. The opening protocol opens no order twice: either the
coordinator starts an order once, and then nothing that happens to the journal matters, or the journal keeps
its attempts, and then nothing the coordinator answers matters. Attempts stay recorded exactly as long as no
operator approval read before an attempt is saved after it. In every run without such an approval whose guards
see a trustworthy channel list the funding limit holds; with one, under every configuration, any two orders
that together exceed the limit can both be opened (`TwoOrdersOverspend`).

**Funding builder and on-chain scripts** (`Cells`, `VaultScripts`, `VaultSoundness`, `FundingBuilder`,
`FundingRules`, `FundingAccepted`). What the validators let through is proved over every transaction, in
numbers on the cells. The off-chain builder and three separately written validators agree exactly under
conditions that can be read off the cells. `ExampleIsAccepted` is an order that meets them.

One document differs from the code, and the model follows the code: `ckb-scripts/README.md` lists five script
arguments for the vault lock and four for the vault type, where the scripts read six and five (each also names
the funding-intent code).

Class methods in `LedgerStore`, `MarketDb` and `OpeningWorker` update fields in place as the source does; each
is proved equal to a specification function, about which the lemmas speak. Iterator chains that only compute a
value are functions.

## Model

| member | source | states |
|---|---|---|
| SettlementProof.Summarize | src/marketplace/settlement.rs:84-163 | whatever order the worklist pops in, the result is the order-free `Summary`: the supplied transactions must be exactly the set reachable from the funding spend, pending is exactly the outputs that are neither wallets nor spent commitments, and each rejected proof fails with the right error |
| SettlementGraph.KindsAreDisjoint | src/marketplace/settlement.rs:50-63 | no output is both a wallet arrival and a commitment |
| SettlementGraph.ReachableIsLeast | src/marketplace/settlement.rs:123-151 | the reachable set is the least set closed under commitment spends |
| SettlementGraph.ReachableIsClosed | src/marketplace/settlement.rs:123-151 | the reachable set is itself closed under commitment spends |
| SettlementSoundness.ConfirmedIff | src/marketplace/settlement.rs:84-163 | against hidden history: a proof made of part of the committed history is confirmed exactly when that part is everything the funding spend leads to in the whole history and every output there is resolved |
| SettlementSoundness.ConfirmedMeans | src/marketplace/settlement.rs:50-163 | a proof is confirmed exactly when it is a channel's funding spend with everything that follows, without conflicts, and each output is a wallet cell or a commitment cell spent within it, both spelled out in scripts, arguments and data |
| SettlementSoundness.AcceptedIsRelated | src/marketplace/settlement.rs:116-155 | an accepted proof, confirmed or not, names the history's own closing transaction and only its consequences |
| SettlementSoundness.PendingOnlyShrinks | src/marketplace/settlement.rs:133-150 | a point pending under a larger proof and produced inside a smaller one was already pending there |
| SettlementSoundness.ConfirmedIsMaximal | src/marketplace/settlement.rs:152-162 | a confirmed proof cannot be extended by any accepted superset |
| SettlementSoundness.CooperativeCloseIsConfirmed | src/marketplace/settlement.rs:133-150 | a funding spend straight into wallets is confirmed, without further transactions |
| SettlementProof.Verify | src/marketplace/settlement.rs:166-195 | a claim is certified exactly when its transactions are committed, listed once, and summarise to the claimed closing hash and flag, and its pending list is the sorted list of the pending outpoints, without repeats |
| SettlementSoundness.CertifiedIsSettled | src/marketplace/settlement.rs:166-195 | a claim certified as confirmed accounts for the whole settlement in the whole history |
| SettlementProof.Spender | src/marketplace/settlement_scan.rs:3-55 | a reported spender really spends the point and is the only one; nothing found proves nothing unless the indexer hides no spend; and the query succeeds whenever every page up to a short one within the limit is readable and the cursors advance |
| SettlementProof.Inspect | src/marketplace/settlement_scan.rs:59-105 | with an indexer that hides nothing and answers, discovery succeeds exactly when the funding output is sound, at most 32 transactions follow from the funding spend, and at most 64 points have to be looked up, and then finds all of them; it reports only summaries of committed transactions; each limit is reported only when the history exceeds it, and the unrelated, conflicting or does-not-spend errors never |
| SettlementSoundness.DiscoveredIsCertified | src/marketplace/settlement_scan.rs:59-105 | of the claims about what discovery reports the checker certifies exactly those that list its pending outpoints in order; the transactions may be listed in any order |
| SettlementSoundness.OneCertifiedList | src/marketplace/settlement.rs:156-160 | there is exactly one such list of pending outpoints |
| SettlementSoundness.TextIsCanonical | src/marketplace/settlement.rs:144-150 | and it lists canonical texts of those outpoints |
| TextOrder.BeforeIff | src/marketplace/settlement.rs:125-160 | in the order of a dictionary |
| SettlementSoundness.DiscoveredPendingIsExact | src/marketplace/settlement_scan.rs:74-101 | with an indexer that hides nothing, the reported pending set is what the history leaves unresolved |
| Accounting.MovePositions | src/store/accounting.rs:54-169 | deploy, undeploy, release and settle leave exactly the closed form on the array, and succeed exactly when the active positions of the asset hold the amount |
| Accounting.ReservePositionsWithFee | src/store/accounting.rs:14-52 | the reserving loop leaves the closed form with the fee shares credited, and succeeds exactly when enough is available |
| AccountingLaws.MoveConserves | src/store/accounting.rs:54-160 | even a failing move shifts exactly what it can between two buckets of one asset; every other sum and every position's total stay, and closed or foreign positions are untouched |
| AccountingLaws.MoveIsGreedy | src/store/accounting.rs:54-160 | positions are drained in their order: none gives anything while an earlier active one of the asset still has something |
| AccountingLaws.OthersAreSpared | src/store/accounting.rs:14-169 | closed positions and other assets are never touched |
| AccountingLaws.MoveBack | src/store/accounting.rs:54-106 | after a complete move the reverse move also completes and restores every sum |
| AccountingLaws.ReservingConserves | src/store/accounting.rs:25-47 | reserving is the plain move plus fee credits |
| AccountingLaws.FeeIsExact | src/store/accounting.rs:33-46 | a successful reservation credits exactly the lease fee in all |
| AccountingLaws.SharesAreFloored | src/store/accounting.rs:36-39 | before the last contributor every share is the floored proportional share and the undistributed cap never binds |
| AccountingLaws.LastShareIsFair | src/store/accounting.rs:33-46 | the last contributor gets at least its exact share and, when the product fits 64 bits, less than one unit more for each contributor before it |
| LiveSync.ApplyLiveVault | src/store/vault_chain_sync.rs:78-106 | the projection loop equals the prefix-sum closed form and reports a change exactly when the record or a position changed |
| LiveSync.SyncFills | src/store/vault_chain_sync.rs:88-104 | deployed sums to what the supply covers, reserved to what deployment leaves, and every touched position is balanced |
| LiveSync.SyncIsGreedy | src/store/vault_chain_sync.rs:78-106 | a later position holds nothing deployed before an earlier one is all deployed, and nothing reserved before it is all in use |
| LiveSync.SyncIsIdempotent | src/store/vault_chain_sync.rs:78-106 | applying the same totals again changes nothing |
| LedgerTieOut.Rebook | src/store/liquidity_deploy.rs:214-248 | changing what a reservation books and moving its amount keeps the tie, and the positions always hold enough |
| LedgerTieOut.HandoffKeeps | src/store/liquidity_deploy.rs:110-176 | a handoff committed on an unfinished request that is not put back from open keeps the books tied out and logs no failed move |
| LedgerTieOut.HandoffBreaks | src/store/liquidity_deploy.rs:110-176 | any other handoff commit breaks the tie or the pairing of statuses |
| LedgerTieOut.LateHandoff | src/store/liquidity_deploy.rs:202-255 | a channel that opens after its request was released: the amount is booked as deployed, and of what is then booked as deployed and reserved the positions hold exactly that amount too little |
| LedgerBreaks.HandoffTooLate | src/store/liquidity_deploy.rs:202-255 | a run from empty books that ends so, for every amount |
| LedgerBreaks.CreateHalfway | src/store/liquidity.rs:158-180 | a run from empty books in which a consistent live cell promises more than the positions hold, and the create that relies on it breaks the books |
| LedgerBreaks.SyncDiverges | src/store/vault_chain_sync.rs:62-104 | a live cell with a reservation the store never made breaks the books |
| LedgerIntents.LateCreateIff | src/store/liquidity.rs:158-182 | storing a signed request that the positions already reflect ties the books out exactly when nothing else is available |
| LedgerIntents.SyncThenCreateIff | src/store/liquidity.rs:166-182 | when the live cell already counts a signed request, storing it keeps the books exactly when it took the last of the supply |
| LedgerIntents.LaterSyncRestores | src/store/vault_chain_sync.rs:78-104 | and in every case the next live cell ties the books out again |
| LedgerTieOut.MarkIff | src/store/funding_intent.rs:219-229 | writing a funding stage without touching the reservation keeps the books exactly when a handoff to it would |
| LedgerTieOut.WatchKeeps | src/store/executor_channel.rs:37-290 | one watcher pass that opens, settles and fails requests together keeps the books tied out, whatever the channel list shows |
| LedgerEffects.WatchEnds | src/store/executor_channel.rs:37-181 | the stage and the hold each request ends with, by its stored stage and what is seen of its own channel; nothing else about it changes |
| LedgerEffects.WatchMoves | src/store/executor_channel.rs:183-265 | of each asset exactly the amounts of the open requests seen settled become available, what opens leaves the reserve for the deployment, and what is lost goes back to the reserve |
| LedgerEffects.PassesCount | src/store/executor_channel.rs:288-293 | both passes succeed and reply how many requests they moved |
| LedgerEffects.HandoffEnds | src/store/liquidity_deploy.rs:110-255 | a handoff that may be committed deploys a request that opens, takes back an open one that fails, and moves nothing otherwise |
| LedgerTieOut.ReleaseKeeps | src/store/liquidity_repair.rs:15-63 | releasing a reserved, failed or unopened request always finds its reserve |
| LedgerEffects.ReleaseEnds | src/store/liquidity_repair.rs:15-63 | a release frees exactly what any request holds that is neither open nor finished, and refuses those |
| LedgerTieOut.SettleKeeps | src/store/liquidity_repair.rs:65-108 | settling an open request always finds its deployment |
| LedgerEffects.SettleEnds | src/store/liquidity_repair.rs:65-108 | a settlement frees exactly what an open request has deployed, and refuses every other |
| LedgerTieOut.ExpireKeeps | src/store/executor.rs:215-273 | the expiry sweep never stops half-way |
| LedgerEffects.ExpireEnds | src/store/executor.rs:215-240 | a request is released exactly when its term is over before its funding was submitted |
| LedgerEffects.ExpireMoves | src/store/executor.rs:241-255 | exactly those amounts go from the reserve to what is available |
| LedgerTieOut.WithdrawKeeps | src/store/settlement.rs:227-248 | a withdrawal touches no booked liquidity, and closes a position only when it is empty |
| LedgerEffects.WithdrawEnds | src/store/settlement.rs:227-248 | a withdrawal succeeds exactly up to what is available in its position, takes that much out of it and closes it when nothing is left |
| LedgerTieOut.ClaimFeeKeeps | src/store/settlement.rs:250-265 | claims never exceed what was earned |
| LedgerEffects.ClaimEnds | src/store/settlement.rs:250-265 | a claim succeeds exactly up to what was earned and not yet claimed |
| LedgerTieOut.DepositKeeps | src/store/vault.rs:155-181 | a deposit adds its amount to what is available of its asset, and changes no other sum, reservation or request |
| LedgerTieOut.CreateIff | src/store/liquidity.rs:158-203 | a create keeps the books exactly when it is refused outright, reserves everything under a new identifier, or, without a signed intent, finds nothing at all although the live cell promised it |
| LedgerEffects.CreateEnds | src/store/liquidity.rs:158-203 | in tied-out books a request is stored exactly when what it asks for is promised and held, and that much leaves what is available for the reserve |
| LedgerTieOut.SyncIff | src/store/vault_chain_sync.rs:78-106 | applying the live cell keeps the books exactly when the projection yields what the reservations book |
| LedgerEffects.PromiseIsKeptIff | src/store/vault_chain_sync.rs:62-72 | the vault summary promises what the positions hold exactly when the live cell's total is what they supply |
| LedgerTieOut.StepIff | src/store/liquidity_deploy.rs:202-255 | for every operation, the exact condition under which tied-out books stay tied out |
| LedgerTieOut.InnerMovesFit | src/store/liquidity_deploy.rs:223-244 | in tied-out books no inner position move fails: nothing is logged and nothing reports missing liquidity |
| LedgerTieOut.RunTiesOut | src/store/mod.rs:100-106 | from empty books every admissible run ends tied out without one failed inner move |
| LedgerTotals.StepAccounts | src/store/accounting.rs:14-169 | a step changes total supply, earned fees and claimed fees by exactly what its reply confirms |
| LedgerTotals.RunAccounts | src/store/accounting.rs:14-52 | over every admissible run supply is deposits less withdrawals, earned fees are the lease fees of the created requests, and claimed fees what was paid out |
| LedgerStore.Store.SyncChannels | src/store/executor_channel.rs:23-295 | the watcher's passes over the fields do what the specification says, list by list |
| LedgerStore.Store.UpdateReservation | src/store/liquidity_deploy.rs:202-255 | the reservation and the positions follow the new stage |
| LedgerStore.Store.CommitHandoff | src/store/liquidity_deploy.rs:110-176 | the outcome overwrites whatever stage is stored, then the reservation follows |
| LedgerStore.Store.MarkStage | src/store/fiber_funding_builder.rs:155-178 | a stage is written and the reservation left alone |
| LedgerStore.Store.ReleaseRequest | src/store/liquidity_repair.rs:15-63 | the stage is overwritten before the move that can fail |
| LedgerStore.Store.SettleRequest | src/store/liquidity_repair.rs:65-108 | as for a release, from open only |
| LedgerStore.Store.ReleaseExpired | src/store/executor.rs:215-273 | all expired requests are marked first, then freed one by one until a move fails |
| LedgerStore.Store.CreateRequest | src/store/liquidity.rs:158-203 | a failing reservation leaves what it had moved; it refuses the request, or, when a signed intent is settled, is only logged |
| LedgerStore.Store.AddDeposit | src/store/vault.rs:120-152 | one active position is appended, all of it available |
| LedgerStore.Store.SettleWithdrawal | src/store/settlement.rs:227-248 | available and supplied fall together, and an emptied position closes |
| LedgerStore.Store.SettleFeeClaim | src/store/settlement.rs:250-265 | only what is earned and unclaimed can be claimed |
| LedgerStore.Store.ApplyLive | src/store/vault_chain_sync.rs:78-106 | the record and the positions are replaced together |
| OutpointText.PrintRoundTrip | src/marketplace/chain.rs:199-219 | printing and parsing an outpoint gives it back |
| OutpointText.PackedMeansPoint | src/marketplace/chain.rs:205-213 | the packed spelling canonicalises to the text of the same point |
| OutpointText.UpperMeansPoint | src/marketplace/chain.rs:199-219 | upper-case digits without the prefix mean the same point |
| OutpointText.CanonicalIsIdempotent | src/marketplace/chain.rs:215-219 | a canonical text is its own canonical text and means the same point |
| OutpointText.CanonicalIff | src/marketplace/chain.rs:215-219 | two spellings have one canonical text exactly when they denote one point |
| MarketDb.Db.CreateOrder | src/marketplace/orders.rs:24-151 | an order is stored exactly when every check passes; any refusal leaves the tables alone |
| MarketDb.Db.AcceptQuote | src/marketplace/orders.rs:159-192 | the commit rechecks the stored order, not the one that was read |
| MarketDb.Db.CancelOrder | src/marketplace/orders.rs:194-217 | only the owner's early orders are cancelled |
| MarketDb.Db.Expire | src/marketplace/orders.rs:247-270 | one sweep marks overdue fees and expired early orders |
| MarketDb.Db.SignQuote | src/marketplace/connector_api.rs:31-62 | quoting before expiry, repeatable |
| MarketDb.Db.StartOpening | src/marketplace/connector_api.rs:68-109 | opening needs an accepted, unexpired order with both authorizations |
| MarketDb.Db.ReportFailure | src/marketplace/connector_api.rs:118-167 | only an early order without channel or outpoint fails outright; everything else is reconciled |
| MarketDb.Db.ReportProbe | src/marketplace/connector_api.rs:177-237 | the probe's payment hash is fixed by the first report |
| MarketDb.Db.StoreReport | src/marketplace/evidence.rs:77-121 | a report is stored on the order's own channel and outpoint or rolled back with its binding |
| MarketDb.Db.Deliver | src/marketplace/evidence.rs:163-176 | delivery rechecks readiness and stores the receipt with the order |
| MarketDb.Db.RecordPayment | src/marketplace/payments.rs:44-59 | a fee transaction is bound and recorded together or not at all |
| MarketDb.Db.WaiveFee | src/marketplace/payments.rs:63-86 | a paid fee cannot be waived |
| MarketDb.Db.BindReference | src/marketplace/db.rs:97-116 | a reference belongs to the first order that binds it |
| MarketDb.Db.BindFunding | src/marketplace/db.rs:125-139 | every stored spelling is compared canonically before binding |
| MarketDb.Db.RecordHeartbeat | src/marketplace/heartbeat.rs:54-68 | a heartbeat never moves a node's clock back and only a provider may report a policy |
| MarketDb.Db.BeginOffer | src/marketplace/offers.rs:28-66 | before the transaction an offer is checked against the node record as it is then: ownership, capacity bounds, the recipient's cell size as least fee, and the provider's policy |
| MarketDb.Db.PublishOffer | src/marketplace/offers.rs:67-81 | the transaction reads the node again, needs fundable capacity and disables the provider's older offers |
| MarketDb.Db.SumReserved | src/marketplace/orders.rs:89-93 | the reserved sum ranges over exactly the provider's reserving orders |
| MarketSafety.StepKeeps | src/marketplace/db.rs:42-51 | every step, whatever it interleaves with, keeps the invariant of the tables and the flights and only advances the orders |
| MarketSafety.ReportShape | src/marketplace/evidence.rs:93-111 | a fresh report cannot hide a closure the other peer reported, and a delivered order keeps its status |
| MarketTheorems.RunKeeps | src/marketplace/orders.rs:159-270 | over every run a status rank never falls, terminal statuses are final, what is written once stays, and funds are never reserved again |
| MarketCauses.StatusMovesIff | src/marketplace/connector_api.rs:31-167 | over any step of any reachable state an order comes to a status exactly under the one condition that leads there: who acts, from which status, before which time, on what evidence |
| MarketCauses.FeeMovesIff | src/marketplace/payments.rs:44-86 | the same of the fee: due on delivery, overdue after a day by the sweep, waived by the recipient, paid by a transaction no other order holds |
| MarketCauses.MarksIff | src/marketplace/connector_api.rs:31-237 | the same of the authorizations and the probe |
| MarketCauses.ReportLandsIff | src/marketplace/evidence.rs:77-121 | a started report lands exactly when the order was not given up, its channel and outpoint are the reported ones or not known yet, and no other order holds the outpoint |
| MarketParties.PartiesAreAlwaysReal | src/marketplace/orders.rs:47-69 | in every run every order is between the owners of two real nodes, who differ, with the keys and within the bounds of the offers; node keys stay distinct and no provider has two enabled offers |
| MarketParties.NodesStayThemselves | src/marketplace/nodes.rs:121-207 | over every run a node keeps its owner, role and key |
| MarketAdmission.CreateAddsIff | src/marketplace/orders.rs:47-150 | a new request is stored exactly when it fits a standing offer and its parties, the provider can fund it beside everything reserved, and the account has nothing outstanding there; the order carries the offer's terms and nothing else |
| MarketAdmission.OfferDepartsIff | src/marketplace/offers.rs:28-66 | who may offer what, in figures |
| MarketAdmission.OfferLandsIff | src/marketplace/offers.rs:67-81 | an offer lands exactly when its node was seen lately, keeps its reserve and can fund the smallest order; it is then the provider's only enabled one |
| MarketAdmission.OfferMovesIff | src/marketplace/offers.rs:98-112 | an offer keeps its terms and is switched off only by its owner or by the provider's next one |
| MarketAdmission.ReportDepartsIff | src/marketplace/evidence.rs:21-76 | when a peer's report is taken in, and in what form |
| MarketAdmission.DeliveryDepartsIff | src/marketplace/evidence.rs:126-162 | when a delivery is started |
| MarketAdmission.RecordMovesIff | src/marketplace/heartbeat.rs:30-68 | a node's figures change only by its own heartbeat, never an older one, within bounds, and with a policy only for a provider |
| MarketTheorems.ReachableOrder | src/marketplace/evidence.rs:180-227 | in every reachable state a fee is due only for a delivered order and paid only by a stored transaction, verifying shows every reported closure, and a delivered order has a receipt in which both peers report one ready channel with mirrored balances, at least the quoted capacity inbound, no settlement and a received probe |
| MarketTheorems.OneOutstandingPerProvider | src/marketplace/orders.rs:70-80 | in every reachable state an account has at most one outstanding order with a provider node |
| MarketTheorems.ReferencesAreExclusive | src/marketplace/db.rs:97-139 | no two orders hold spellings of one funding outpoint or one fee transaction |
| MarketTheorems.OpensOnce | src/marketplace/connector_api.rs:84-95 | after an order was started no later start of it succeeds, after any run |
| MarketTheorems.RetryAddsNothing | src/marketplace/orders.rs:37-46 | a retried create succeeds and adds nothing after any run; the key with other parameters is refused |
| MarketTheorems.CreateCovers | src/marketplace/orders.rs:81-99 | a new order leaves its provider's wallet and total limit covering everything reserved, and fits the per-order limit |
| MarketTheorems.StepKeepsCover | src/marketplace/orders.rs:89-97 | no other step can oversell a provider whose record stands |
| MarketTheorems.RunKeepsCover | src/marketplace/orders.rs:89-97 | cover persists over any run that leaves the node's record alone |
| MarketTheorems.ListedIsFundable | src/marketplace/offers.rs:84-97 | a listed capacity is shown exactly up to what a create would find fundable |
| MarketTheorems.AcceptLandsIff | src/marketplace/orders.rs:175-191 | an accepted quote can be overtaken by the order moving on or expiring, never by a changed quote |
| MarketTheorems.DeliveryLandsIff | src/marketplace/evidence.rs:163-227 | a started delivery lands exactly when the stored evidence shows all that and is at most 90 seconds old; the order is then delivered, its fee due, and the receipt the order as it stands |
| MarketAuthorization.LeavesEarlyOnlyBy | src/marketplace/connector_api.rs:68-167 | an order gets past the early stages alive only by a start with both authorizations or by a failure report that does not fail it outright |
| MarketAuthorization.AuthorizationKeptIff | src/marketplace/connector_api.rs:138-161 | while every order past the early stages is signed and proven, a step changes that exactly when it is a failure report on an early order without both authorizations that puts it under reconciliation |
| MarketAuthorization.AlwaysAuthorizedIff | src/marketplace/connector_api.rs:138-161 | over whole runs: everything delivered or on its way is signed and proven at every moment exactly when no step is such a report |
| MarketBypass.BypassDelivers | src/marketplace/connector_api.rs:150-161 | delivery does not imply both authorizations: from every state of the invariant, any early order without a channel can be brought to delivery with its authorizations as they are |
| MarketBypass.EveryOrderIsDeliverable | src/marketplace/evidence.rs:77-176 | every order the market accepts, neither signed nor proven, can be delivered so |
| MarketBypass.DeliveredUnauthorized | src/marketplace/evidence.rs:77-176 | a run from the empty tables ends with a delivered order that is neither signed nor proven |
| MarketTheorems.PaymentLandsIff | src/marketplace/payments.rs:29-59 | a payment lands on an order that is delivered by then, exactly when the transaction is not another order's and the order has no other |
| Budget.SumExposure | src/connector/budget.rs:49-89 | the two loops compute the exposure or fail on the first unreadable, overflowing or unfunded entry |
| BudgetBounds.ExposureIsExact | src/connector/budget.rs:49-89 | there is a figure exactly when every balance that counts is a number, every attempt nothing accounts for has an amount, and the sum fits 64 bits; it is then that sum, whatever the order |
| BudgetBounds.ExposureIsBounded | src/connector/budget.rs:49-89 | on every input the figure lies between what the unrecovered channels hold and that plus each attempt as often as it can be counted |
| BudgetBounds.ExposureIsNoMore | src/connector/budget.rs:49-89 | it is at most what is owed plus what the unrecovered channels hold, when every attempt matches at most one of them and only while it is owed |
| BudgetBounds.CountedAsOwedIff | src/connector/budget.rs:65-87 | that is exactly when an attempt is counted as it is owed |
| BudgetBounds.TwoListingsOvercount | src/connector/budget.rs:65-70 | without it the figure can be more: a channel listed twice counts its attempt twice |
| BudgetBounds.FreeIff | src/connector/budget.rs:43-89 | the figure is zero exactly when every listed channel is settled on the chain and every attempt is settled or one of them, by identifier or by funding point in any spelling |
| BudgetBounds.RecoveredBalanceIsIgnored | src/connector/budget.rs:55-59 | the balance of a recovered channel never matters |
| BudgetLaws.ExposureIsConservative | src/connector/budget.rs:49-89 | when no channel is matched by two attempts, the exposure is at least everything the owed attempts committed |
| BudgetLaws.SharedChannelUndercounts | src/connector/budget.rs:65-70 | without that, two attempts can hide behind one channel |
| BudgetLaws.OwedIsCounted | src/connector/budget.rs:65-87 | for any channel list each owed attempt by itself is covered |
| BudgetLaws.DroppedChannelsStayCounted | src/connector/budget.rs:75-87 | whatever channels the node stops listing, the figure over the rest covers the sum of everything owed with all of them listed |
| BudgetLaws.SettlementOnlyLowers | src/connector/budget.rs:43-89 | more verified settlements never raise the figure or turn it into an error |
| OpeningSafety.OpensAtMostOnce | src/connector/execution.rs:48-68 | with a coordinator that starts an order once, no order is opened twice in any run, with crashes anywhere and stale approvals landing at any time |
| OpeningSafety.OpensOnceByJournal | src/connector/execution.rs:10-15 | with a coordinator that may start an order any number of times, the journal alone prevents a second opening in every run that erases no attempt |
| OpeningSafety.AttemptsSurviveIff | src/connector/mod.rs:113-128 | a recorded attempt survives a step exactly when the step is not a stale approval overwriting it |
| OpeningSafety.OpensOnlyApproved | src/connector/worker.rs:70-80 | without automatic approval every opening, races included, carries out a quote that local policy allows and an operator approved |
| OpeningBudget.BudgetHolds | src/connector/execution.rs:16-68 | in every sound run, whatever the coordinator answers, the unresolved openings stay within the limit, each is durably recorded with its funding, and none was sent twice |
| OpeningBudget.IssueIsCovered | src/connector/execution.rs:20-68 | when an opening is sent its attempt is on record, the exposure the guard computed, foreign channels included, and this order fit the limit together, and no other order was attempted in between |
| OpeningRules.GuardIff | src/connector/execution.rs:20-32 | an order passes the guard exactly when every earlier attempt is settled or an established channel, the figures can be read, and it fits the limit on top of them |
| OpeningRules.OneUncertainOpening | src/connector/execution.rs:20-23 | in a careful run every other attempt was settled or established when the worker looked |
| OpeningRules.OpeningsMeetPolicy | src/connector/policy.rs:9-50 | in every run, under every configuration, every opening met the local policy, spelled out |
| OpeningRules.AdmitIff | src/connector/worker.rs:70-80 | an order is taken in exactly when it meets the policy in time and has local consent to its own quote |
| OpeningRules.JournalMoves | src/connector/mod.rs:113-128 | what each step makes of an order's journal |
| OpeningBudget.ErasureOverspends | src/connector/mod.rs:147-166 | from any state, an approval that erases the only attempt on record lets every other affordable order be opened on top of what was opened before |
| OpeningBudget.TwoOrdersOverspend | src/connector/mod.rs:147-166 | under every configuration, any two affordable orders that together exceed the limit can both be opened |
| OpeningWorker.Connector.Process | src/connector/worker.rs:69-81 | uninterrupted, an accepted order is validated, needs local consent to its own quote, and is then opened as the state machine does it |
| OpeningWorker.Connector.OpenOrder | src/connector/execution.rs:10-86 | the journal is read and the order validated again; then the limit, the wallet, the peer and the closing lock, the start, the record and the opening follow as in the state machine |
| OpeningWorker.Connector.Approve | src/connector/mod.rs:147-166 | uninterrupted, an approval is its read and its save |
| OpeningWorker.Connector.Save | src/connector/mod.rs:124-128 | a save replaces the order's whole record and no other |
| Cells.VaultRoundTrip | src/store/fiber_funding_hex.rs:44-57 | the scripts read back what the builder encoded for the vault |
| Cells.RequestRoundTrip | src/store/fiber_funding_hex.rs:59-72 | the scripts read back what the builder encoded for a request |
| VaultScripts.SumTypeCodeField | ckb-scripts/shared/src/lib.rs:152-174 | a field is summed over a code family, stopping at the first malformed cell or overflow |
| VaultScripts.RequireOutputsTyped | ckb-scripts/vault-lock/src/main.rs:79-91 | accepted exactly when every output under the vault's lock has the vault's type |
| VaultSoundness.VaultUpdateSound | ckb-scripts/vault-type/src/main.rs:149-300 | over every transaction: with one vault cell before and after it, the script accepts only if a total that changes does so by what the receipt cells change, locked liquidity changes within the request cells' amount, fees rise within the request cells' fee and fall within the claim cells' amount, and capacity falls only beside a receipt or a claim or within a request or a funding intent; and with readable services that is enough |
| VaultSoundness.VaultCreationIff | ckb-scripts/vault-type/src/main.rs:135-140 | a vault appears exactly empty and with the administrator's lock |
| VaultSoundness.VaultClosingIff | ckb-scripts/vault-type/src/main.rs:142-147 | and disappears exactly so |
| VaultSoundness.VaultIsSingle | ckb-scripts/vault-type/src/main.rs:64-70 | an accepted transaction has at most one vault cell on each side, and one at all |
| VaultSoundness.ReceiptsAreFree | ckb-scripts/vault-type/src/main.rs:184-200 | a total that stays says nothing about receipts: an unchanged vault is accepted beside any change of them |
| VaultSoundness.SumIsTotal | ckb-scripts/shared/src/lib.rs:152-174 | a family's field is read exactly when every cell is well formed and the plain sum fits; it is then that sum |
| VaultSoundness.RequestCreationIff | ckb-scripts/capacity-request-type/src/main.rs:105-125 | who may create a capacity request, beside what, in which status |
| VaultSoundness.RequestClosingIff | ckb-scripts/capacity-request-type/src/main.rs:127-135 | when one may disappear |
| VaultSoundness.RequestUpdateIff | ckb-scripts/capacity-request-type/src/main.rs:137-173 | a request keeps its terms, its status never falls, and only its operator makes it deployed |
| VaultSoundness.VaultLockSound | ckb-scripts/vault-lock/src/main.rs:50-91 | the lock opens for the administrator, or for a service beside the vault, and no output keeps it without being the vault |
| FundingBuilder.BuildTransaction | src/store/fiber_funding_tx.rs:26-128 | inputs, outputs, dependencies and witnesses pushed step by step form the specified transaction, or the build is refused |
| FundingBuilder.BuildConserves | src/store/fiber_funding_tx.rs:87-99 | a build conserves capacity over its three outputs, moves exactly the request's amount from reserved to deployed and changes nothing else but the request's status |
| FundingRules.BuiltIff | src/store/fiber_funding_tx.rs:26-128 | when there is a transaction at all, in figures of the cells and of what the node asks |
| FundingRules.BuildSpends | src/store/fiber_funding_tx.rs:60-112 | the vault and the request are spent after the base inputs and every dependency is there once |
| FundingBuilder.NextVaultIff | src/store/fiber_funding_cells.rs:72-108 | the vault cell can fund an amount exactly when its data is well formed, the amount is reserved and enough capacity stays |
| FundingBuilder.WitnessAtRequest | src/store/fiber_funding_tx.rs:103-108 | the signer's witness lies at the request input exactly when the base transaction had no more witnesses than inputs |
| FundingBuilder.DepsAreComplete | src/store/fiber_funding_cells.rs:143-169 | every script dependency is present, none twice |
| FundingAccepted.VaultTypeIff | ckb-scripts/vault-type/src/main.rs:149-243 | of the transactions the builder makes, the vault's type script accepts exactly those with sound live data and a request cell that covers the amount |
| FundingAccepted.RequestTypeIff | ckb-scripts/capacity-request-type/src/main.rs:105-173 | the request's type script accepts it exactly when the request is well formed, at most deployed, and its operator's lock is among the inputs |
| FundingAccepted.VaultLockIff | ckb-scripts/vault-lock/src/main.rs:65-91 | the vault's lock accepts it exactly when no other output is locked by it |
| FundingAccepted.AcceptedIff | src/store/fiber_funding_tx.rs:82-112 | all three accept exactly under these conditions together; under any other the chain rejects what the builder signed |
| FundingAccepted.ExampleIsAccepted | src/store/fiber_funding_tx.rs:60-112 | there is a deployment, an order and a base transaction that meet them |

## Left out

- HTTP, SQLite, JSON, RPC transport, services, setup and command line: input and output only. A transaction is an atomic step with rollback.
- Signatures, hashing, wallet proofs and address decoding: a check that needs them is taken as passed where a step is taken. Order identifiers are the account and key that are digested, and a script carries its own hash.
- Timestamps of records, events, jobs, notes and error texts: they decide nothing in the modelled state. Errors are kept where the caller can tell them apart.
- 64-bit accumulators of fees and sums in positions and orders: unbounded numbers here. The saturating product of the fee split, the checked sums of the budget and of the scripts, and the builder's checked arithmetic are modelled.
- SettlementProof.Inspect: the order of listed hashes and pending points is not part of the result, which is a set; transaction hashes are taken to be spelled in lower case with their prefix, as the node returns them.
- SettlementProof.Spender: the indexer is an arbitrary source of pages; the lock it searches by and the search timeout are not modelled.
- Ledger.Create: receipt recovery and request recovery, which overwrite the ledger from chain data, are not modelled; an intent's own status, its checks against the request and the vault pointer are not either; the lease fee is a parameter.
- LedgerStore.Store.CreateRequest: the quote's own availability check is made on an earlier reading and can only refuse, which leaves the books alone; the check under the lock is the one modelled.
- LedgerTieOut.StepIff: a handoff is the commit under the write lock; the reads and remote calls before it decide nothing that still holds there. The channel list is an arbitrary function of the request.
- Ledger.Withdraw: a position that supplies less than it has available, which the invariant excludes, underflows in the source and stops at zero here.
- LedgerStore.Store.AddDeposit: positions are an array reallocated on growth; requests and reservations are sequences reassigned.
- Market.Create: the length bound of the idempotency key counts characters; the quote's network, protocol and nonce are represented by its hash.
- Market.BeginPublish: the size of a cell under the recipient's lock is a parameter.
- Market.Probe: the shape of invoices and payment hashes is one flag.
- Market.BeginReport: the check of the funding transaction on chain and the verification of an attached settlement are taken as passed; the evidence carries the verified flag.
- OpeningBudget.BudgetHolds: assumes what the connector cannot check itself, that no two attempts match one listed channel and that accepted settlements are real, and that no stale approval erases an attempt.
- OpeningWorker.Connector.OpenOrder: of the order's validation the protocol name, the peer address and the signatures are taken as passed.
- FundingAccepted.AcceptedIff: for positive amounts, which the store enforces on requests; the base inputs belong to no LiquidLane family and the scripts' arguments refer to each other as deployed; the scripts of the base inputs themselves, fees and signing are not modelled.
- The version 2 vault validators, the receipt, fee-claim and funding-intent scripts: single-branch checks whose model would add only easy members.
