# Meridian settlement: a verified model

Meridian is a settlement engine written in C. Payers sign intents; the ledger reserves the gross amount of an intent,
settles it over a lane (net amount to the beneficiary, a fee to the operator, a reserve fee into the lane's sink
vault) or cancels it and refunds the payer. Routes of hops between vaults are compacted before pricing; recovery lanes
add a premium for the exposure of the route. A separate module analyses the risk of a portfolio of lanes. Plans,
intents and reports have canonical texts, which are hashed.

This project models that logic and proves what it promises; `dafny verify dfyconfig.toml` verifies all of it.

## How the model is laid out

| file | role |
|---|---|
| `Amounts`, `Sums`, `Digests` | checked 64-bit amounts, basis-point shares, long division; sums over sequences; digests and their hexadecimal form |
| `Routes`, `Exposure`, `Premiums`, `PremiumExact` | plans, in-place compaction, flow at a vault; utilisation and the recovery premium; when compaction can make a route unpriceable or raise its premium |
| `LedgerTypes`, `LedgerSteps` | the records of a ledger and every operation as a total function on states, with the source's order of checks and writes and its partial effects on failure |
| `LedgerInvariant` | the joint invariant `Inv`: catalogue, distinct ids, conservation, pending cover, nonces, receipts |
| `PendingProofs`, `PostingProofs`, `ReserveProofs`, `ClosingProofs`, `SettleProofs`, `CatalogProofs` | what single operations do to a valid ledger |
| `Runs`, `NoStuckFunds`, `PendingExact`, `Replay`, `Counting`, `Intents`, `Quotes`, `Commute`, `VaultViews` | statements over whole runs, failing calls included, and over pairs of calls |
| `SoundBooks`, `Accounting` | what every command keeps in every ledger, the inadmissible commands included: sound records, every end of settling and cancelling from there, and an identity that says where the money is |
| `ForeignSink`, `Examples` | what lanes with foreign sinks cost; concrete runs to the ledgers in which a property fails |
| `Verdicts`, `Admission`, `Prices`, `Receipts`, `Answers` | what each operation answers, as a table of checks of which the first that fails speaks; what it charges, on every class of lane; and the records it leaves, field by field |
| `LedgerClass` | the mutable ledger; each method is proved to do exactly what its step function says, in every state |
| `Risk`, `RiskFigures`, `RiskProofs`, `RiskReport` | the portfolio analysis and its loops; every entry of a report as a figure of the positions; the laws of reports; their texts |
| `Scenarios` | the repository's recovery settlement and risk portfolio, in numbers |
| `Codec`, `CodecWriter` | canonical texts, parsers that undo them, the bounded writer and the printers over a caller's buffer |

A run is any sequence of commands from the empty ledger, failing ones included. Two inputs are not checked by the
operations themselves, and `Runs.Admissible` names exactly those: a deposit must fit the issued supply whenever it
fits the account, and a new lane's sink vault must hold the lane's asset. Every other command is admissible in every
state. `Runs.StepKeepsInvIff` shows that these conditions are exact. What happens without them is not left open:
`Accounting.RunAccounts` accounts for every unit over every run whatsoever, and `ForeignSink` follows foreign sinks in
detail. The concrete runs in `Examples` assume only that the hash functions keep their few names apart.

Hash functions are fields of `LedgerTypes.Hashes`: arbitrary functions, about which nothing is assumed. A reservation
whose id is already taken is therefore a real case of the model, as it is in the code.

## Where code and documents differ, or the code surprises

The model follows the code in each of these.

- A deposit writes the account balance before it checks the issued supply (src/ledger.c:193-199). When only the supply
  overflows, the call fails and the money stays: `CatalogProofs.DepositLeaks`, `Examples.OverdepositExample`.
- A lane may be opened on a sink vault of another asset (src/ledger.c:152-155). Settling over it moves the reserve fee
  between assets and reports a state error after everything has been written; and when the sink is too full for the fee,
  the beneficiary and the operator are paid while the reservation stays open (src/intent.c:400-420). Over a route that
  carries nothing they are paid again by every further call: `SoundBooks.SettleEnds`, `ForeignSink.ForeignSinkOutcomes`,
  `ForeignSink.HalfwayPaysAgain`, `Examples.ForeignSinkExample`, `Examples.PaidAgainExample`.
- Adding a route's pending amounts is not undone when a later hop overflows (src/intent.c:175-191). A refused reserve call
  then leaves the earlier hops pending for good, although nothing is owed: `ReserveProofs.ReserveUnchangedIff`,
  `PendingExact.RunExactIff`, `PendingExact.RunKeepsExcess`, `Examples.StrandedExample`. This cannot happen while supplies
  stay below an eighth of the 64-bit range: `PendingExact.RunKeepsExact`.
- The journal entry is appended after an operation has been committed: with a full journal the operation reports a
  capacity error although it took effect (src/intent.c:264-268, 435-439, 477-482).
- The architecture document (docs/arquitectura.md) draws settlement as debiting vaults. The code only releases pending
  amounts; no vault balance ever decreases: `Runs.StepEvolves`.
- The current epoch is whatever the last settlement or cancellation passed in; it is not monotone, and the model does
  not pretend so.
- A reservation with the largest possible deadline whose settlement window is already open can never be cancelled; if its
  plan cannot be quoted either, no run ever closes it: `NoStuckFunds.CancellableIff`, `NoStuckFunds.NeverClosesIff`,
  `Examples.StuckExample`.
- Compaction keeps the flow at every vault only when merged hops carry equal amounts, and can raise the premium or make
  the route impossible to price when a run grows: `Routes.CompactionFlow`, `Premiums.NeverRefusedIff`,
  `PremiumExact.NeverDearerIff`, `PremiumExact.PairPremiumIff`.

## Model

| member | source | states |
|---|---|---|
| Amounts.MulBps | src/amount.c:28-40 | the dividing guard rejects exactly the products beyond 64 bits (or rates above 100000), and otherwise the wrapping product is the exact floor share |
| Amounts.FloorSuperadditive | src/intent.c:303-325 | two floored fees never exceed the floored fee at the joint rate |
| Amounts.RatioTurn | src/risk.c:34-41 | one turn keeps the running value below the denominator, and quotient times denominator plus remainder grows by the numerator |
| Amounts.RatioScaled | src/risk.c:21-43 | the multiplication-free loop computes min(scale, floor(numerator * scale / denominator)), and zero for a zero denominator |
| Amounts.RatioAntitone | src/exposure.c:3-23 | utilisation never grows with the capacity |
| Digests.DigestEqual | src/digest.c:125-135 | the accumulating comparison is equality of all 32 bytes |
| Digests.DigestToHex | src/digest.c:24-35 | fills the caller's buffer in place with the terminated hexadecimal form |
| Digests.HexRoundTrip | src/digest.c:24-35 | reading the hexadecimal form back gives the bytes, so the form is injective and free of separators |
| Routes.AddHop | src/route.c:32-42 | appends in place while there is a free slot, and otherwise refuses and changes no occupied slot |
| Routes.MergeHop | src/route.c:131-149 | one turn of the loop edits the last occupied slot, or fills the next, as the merge rule says |
| Routes.CompactHops | src/route.c:120-159 | the in-place greedy loop leaves the merged maximal runs, and kept plus removed hops make the input count |
| Routes.PlanCompact | src/route.c:120-159 | the compacted plan, both digests, effective lane and beneficiary, and the argument error beyond eight hops |
| Routes.MaximalRunsUnique | src/route.c:104-118 | a route has exactly one cut into maximal runs of compatible neighbours |
| Routes.CollapseActsAsLast | src/route.c:104-118 | comparing a hop with the merged predecessor decides the same as comparing it with the original neighbour |
| Routes.GreedyIsMerged | src/route.c:131-149 | merging hop by hop gives one hop per maximal run |
| Routes.CompactionIsMaximalRuns | src/route.c:120-159 | for any cut into maximal runs: compaction yields the plan with the collapsed runs as its hops and the original last hop's lane, the digests of the plan before and after, counts that add up, and no neighbours left compatible |
| Routes.RunBecomesHop | src/route.c:131-149 | a run leads from vault to vault on one lane and bridge; its hop leads from its start to its end, with the first weight, the last amount and the highest priority |
| Routes.CutsHaveReasons | src/route.c:104-118 | two runs are two because the next starts elsewhere, or changes lane or bridge |
| Routes.CompactionFixedPoints | src/route.c:120-159 | a route is unchanged by compaction if and only if no neighbours are compatible |
| Routes.CompactTwice | src/route.c:120-159 | compacting a compacted plan changes nothing and removes nothing |
| Routes.CompactionFlow | src/route.c:132-148 | the net flow at every vault moves by exactly the drift of amounts inside the merged runs |
| Routes.CompactionPreservesFlow | src/route.c:132-148 | with equal amounts inside every merged run the net flow at every vault is unchanged |
| Routes.PairFlowPreservedIff | src/route.c:132-148 | two merged hops leave the flow at all vaults unchanged if and only if they carry the same amount or the first goes nowhere |
| Exposure.UtilizationBps | src/exposure.c:3-23 | the loop over the fixed basis-point scale computes the floored, capped share of the capacity |
| Exposure.RouteExposureCharge | src/exposure.c:25-52 | the loop with its early exits succeeds exactly when every hop is chargeable and the total fits, and returns that total |
| Exposure.ChargeMonotone | src/exposure.c:43-47 | more amount or weight never costs less, a larger vault never costs more |
| Exposure.ChargeBounds | src/exposure.c:43-47 | the two-rounding charge of a covered amount lies between A*A*w/(B*V) - 2 - A*w/(B*B) and A*A*w/(B*V) |
| Exposure.CompactionNeverCostsMore | src/exposure.c:25-52 | when every merged run is tame (it ends on no more than it starts with, or on one unit after nothing at less than the whole weight), a priced route stays priced after compaction, for no more |
| Premiums.SomewherePricedIff | src/exposure.c:25-52 | some vaults price a route if and only if it has at most eight hops, each of at most the whole weight and with a product within 64 bits |
| Premiums.NeverRefusedIff | src/exposure.c:38-49 | for every route: its compacted form can be priced wherever it can, if and only if no vaults price it or every merged run ends on no more than what its first vault must hold to price the route, with a product within 64 bits |
| Premiums.LedNeverRefusedIff | src/exposure.c:38-49 | where no hop leaves a run's first vault with more than the run's first hop (distinct source vaults are one case), the condition reads: every run ends on at most max(1, its first amount) |
| Premiums.LedNeverDearerIff | src/exposure.c:25-52 | on led routes, compaction never raises the premium if and only if every merged run is tame; either no run is a whole-weight unit after nothing, or sources are distinct and every hop costs nothing at a full vault |
| PremiumExact.NeverDearerIff | src/exposure.c:25-52 | for every route: compaction raises its premium at no vaults that price it, if and only if no vaults price it or its compacted form is never refused and the largest rises at its source vaults, each at that vault's worst balance, add up to nothing |
| PremiumExact.WorstAtBreak | src/exposure.c:3-23 | a vault's worst balance is one at which some hop's share of it is about to change: at most ten thousand candidates per hop decide the condition |
| PremiumExact.PairPremiumIff | src/exposure.c:25-52 | for every pair of mergeable hops, the exact condition under which merging never raises the premium: on amounts and weight out of different vaults, on the worst balance of the one vault otherwise |
| Premiums.DearerByBorderlines | src/exposure.c:25-52 | a route whose runs all end on at most max(1, first amount) costs at most one unit more after compaction per run of a whole-weight unit after nothing |
| Exposure.CompactedPriceableIff | src/exposure.c:38-49 | a priced route can be priced after compaction if and only if every merged run passes the guards at its first vault |
| Exposure.CompactionCanCostMore | src/exposure.c:25-52 | a concrete two-hop route that costs nothing before compaction and 2500 after |
| Exposure.GrowingRunRefused | src/exposure.c:38-41 | a pair that grows beyond its first vault is refused once merged |
| LedgerTypes.AccountAt | src/ledger.c:280-302 | a lookup answers the first active record with the id, or none if there is none |
| LedgerSteps.HopsStatus | src/intent.c:143-148 | a route passes the catalogue checks if and only if every hop does |
| LedgerInvariant.ReservationOkStays | src/intent.c:113-150 | a reservation that passed the catalogue checks keeps passing them as the catalogue grows |
| PendingProofs.AddRouteOutcome | src/intent.c:171-193 | adding a route succeeds if and only if every vault has room for all of it; otherwise exactly the hops before the first overflowing one stay applied, and the vaults are as before if and only if the first hop that carries something does not fit |
| PendingProofs.ReleaseRoute | src/intent.c:171-193 | releasing a route that every vault has pending succeeds and takes off exactly its amounts |
| PendingProofs.ReleaseOutcome | src/intent.c:171-193 | releasing a route succeeds if and only if every vault has all of it pending; identities and balances of vaults never move, whatever the end |
| PendingProofs.AddThenRelease | src/intent.c:240-250 | releasing a route just added restores every vault, so the two late rejections of a reserve call leave no trace |
| PostingProofs.CreditOutcome | src/ledger.c:224-242 | in any ledger a credit is refused exactly when the balance overflows, and then changes nothing; otherwise one balance and the column total grow by the amount |
| PostingProofs.CreditEffect | src/ledger.c:224-242 | a credit that fits under the asset's total is never refused, changes one balance and the column total by the amount |
| PostingProofs.DebitEffect | src/ledger.c:204-222 | a debit within the balance is never refused and undoes a credit of the same amount |
| PostingProofs.CreditVaultEffect | src/ledger.c:244-260 | crediting the sink changes the holdings of its own asset only, by the amount |
| Answers.DebitAnswer | src/ledger.c:204-222 | a debit is refused for an unknown asset or account, or a balance below the amount; otherwise exactly one balance falls by it |
| Answers.CreditAnswer | src/ledger.c:224-242 | a credit is refused for an unknown asset or account, or a balance beyond 64 bits; otherwise exactly one balance rises by it |
| Answers.CreditVaultAnswer | src/ledger.c:244-260 | the same for a vault, whose other fields never move |
| Answers.PendingAnswer | src/intent.c:164-193 | one hop moves the outgoing amount of its source and the incoming amount of its target, both or neither |
| ClosingProofs.RouteReleases | src/intent.c:171-193 | in a valid ledger the pending amounts of an open reservation can always be released |
| ClosingProofs.CancelCommits | src/intent.c:449-484 | a cancellation that passes its guards commits whole, refunds the gross amount, keeps the invariant, and fails only for a full journal |
| ClosingProofs.SettleQuotedCommits | src/intent.c:396-447 | once quoted, every posting succeeds, also when payer, beneficiary and operator coincide |
| ReserveProofs.ReserveOutcomes | src/intent.c:195-276 | the four possible ends of a reserve call from a valid ledger, with the exact state each leaves; all of them keep the invariant |
| ReserveProofs.ReserveEnds | src/intent.c:195-276 | the possible ends of a reserve call from any ledger with sound records, with the exact state each leaves, conserved or not |
| ReserveProofs.ReserveUnchangedIff | src/intent.c:236-250 | a reserve call leaves the ledger unchanged if and only if it neither commits (admitted, room for the route at every vault, a fresh id) nor strands amounts (admitted, some vault without room for the whole route, the first hop that carries something fits); then exactly the hops before the overflow stay pending |
| ReserveProofs.AdmittedReservation | src/intent.c:195-238 | the checks before the first write establish everything the invariant asks of a reservation |
| Admission.HopAnswer | src/intent.c:88-111 | a hop is answered by its first failing check, and passes if and only if lane and vaults exist in the asset, the weight is at most the whole and the amount at most the gross amount |
| Admission.PlanAnswer | src/intent.c:113-150 | a plan is answered by its first failing check, hops last and in order |
| Admission.AdmissionAnswer | src/intent.c:195-238 | a reserve call is admitted, or answered by the first check that fails before the first write |
| Admission.AdmittedIff | src/intent.c:195-238 | an intent is admitted if and only if there is room; some account is its payer, vouches for it and carries its nonce; network, deadline and intent id are right; it has one to eight good hops and settles on a suitable lane; beneficiary and operator exist; and the payer can pay |
| Answers.ReserveAnswer | src/intent.c:195-276 | a reserve call is answered by the first failing check of the whole call; only a lack of room for pending amounts leaves a trace; once only the journal can refuse, the reservation of the intent is filed and everything it changes is said |
| SettleProofs.SettleAllOrNothing | src/intent.c:365-447 | a refused quote leaves the ledger untouched; an accepted one commits every posting and keeps the invariant |
| SettleProofs.FailedSettleChangesNothing | src/intent.c:365-447 | with room in the journal, a settlement that does not succeed has changed nothing |
| SettleProofs.FeesUnderCeiling | src/intent.c:303-331 | fees at two rates stay under the fee at any ceiling above their sum, and under the amount below 100 % |
| SettleProofs.QuotedIff | src/intent.c:278-338 | on a lane without premium a quote is accepted if and only if the epoch is in the window, the last hop runs on the settlement lane, the ceiling is computable and the net meets the minimum |
| SettleProofs.SettleableIff | src/intent.c:365-447 | with room in the journal, the same condition decides whether settlement succeeds |
| SettleProofs.SettlesAsPublished | src/ledger.c:580-606 | a settlement without premium charges exactly the fees and net that the lane economics publish |
| SettleProofs.EconomicsSplitGross | src/ledger.c:580-606 | published net and fees always add up to the amount; over sound lanes the view fails only for an unknown lane or a product beyond 64 bits |
| Prices.PremiumIs | src/intent.c:306-315 | only recovery lanes ask a premium; it is there if and only if every hop of the compacted route is covered by the vault it leaves, and is the sum of the hops' tolls |
| Prices.PriceIs | src/intent.c:303-331 | a price is there if and only if the ceiling fits, and the floored fees plus the premium stay under the ceiling's fee and leave the minimum net; nothing else can overflow |
| Prices.QuoteAnswer | src/intent.c:278-338 | on every class of lane a quote is answered by its first failing check; an accepted one charges exactly the floored operator fee, and the floored reserve fee plus the premium, with the rest as net |
| Receipts.ReceiptIs | src/intent.c:421-434 | every field of a receipt: its id seals the rest, its route digest is that of the plan with its maximal runs collapsed, its fees are the quoted ones |
| Receipts.SettledReceipt | src/intent.c:365-447 | a settlement that leaves a receipt has passed every check of its quote, and leaves exactly that receipt |
| Receipts.RunProvenance | src/intent.c:240-263 | over every run whatsoever each reservation is filed under its intent and plan digest, and each receipt is sealed and carries the digest of the compacted plan of a settled reservation |
| Answers.SettleAnswer | src/intent.c:365-447 | a settlement from a valid ledger is answered by its first failing check and then changes nothing; otherwise parties and sink gain exactly the receipt's figures |
| Answers.CancelAnswer | src/intent.c:449-484 | a cancellation from a valid ledger is answered by its first failing check and then changes nothing; otherwise it refunds the gross amount |
| Answers.UnknownAnswer | src/intent.c:375-382 | an unknown reservation is neither settled nor cancelled |
| Answers.EconomicsAnswer | src/ledger.c:580-606 | over sound lanes the published fees are the floored shares at the lane's rates, the net is the rest, the published rate their sum, and refusals are answered in order |
| Answers.AddAssetAnswer | src/ledger.c:49-71 | the first failing check answers; otherwise the new asset is added and nothing else changes |
| Answers.AddAccountAnswer | src/ledger.c:73-98 | the first failing check answers; otherwise an empty account with nonce zero is added |
| Answers.AddVaultAnswer | src/ledger.c:100-134 | the first failing check answers; otherwise a vault with the issued initial balance and nothing pending is added |
| Answers.AddLaneAnswer | src/ledger.c:136-178 | the first failing check answers; otherwise the lane added is the record of the arguments |
| Answers.DepositAnswer | src/ledger.c:180-202 | the first failing check answers; the balance is written after two checks, the supply and the journal after the third |
| CatalogProofs.AddAssetKeepsInv | src/ledger.c:49-71 | a new asset starts conserved: its column is empty in every record |
| CatalogProofs.AddAccountKeepsInv | src/ledger.c:73-98 | opening an account keeps the invariant, whatever the status |
| CatalogProofs.AddVaultKeepsInv | src/ledger.c:100-134 | opening a vault issues its initial balance, owes nothing, and keeps the invariant |
| CatalogProofs.AddLaneKeepsInvIff | src/ledger.c:136-178 | a new lane keeps the invariant if and only if its sink vault holds the lane's asset |
| CatalogProofs.DepositFunds | src/ledger.c:180-202 | a deposit within the supply credits one balance, issues as much, and keeps the invariant |
| CatalogProofs.DepositLeaks | src/ledger.c:193-199 | a deposit that only the supply cannot take fails and breaks conservation |
| CatalogProofs.DepositKeepsInvIff | src/ledger.c:180-202 | a deposit keeps the invariant if and only if it fits the supply whenever it fits the account |
| SoundBooks.SettleEnds | src/intent.c:396-447 | from any ledger with sound records, which of five ends a quoted settlement meets - route not pending, net refused, operator fee refused, reserve fee refused, committed - is decided by the vaults and balances before the call, with who has been paid and the exact state each end leaves |
| Accounting.CancelEnds | src/intent.c:449-484 | from any ledger with sound records a cancellation past its guards refunds exactly the gross amount, if and only if the route is pending and the refund fits; otherwise nobody is paid and the reservation stays open |
| Accounting.StepAccounts | src/intent.c:195-484 | every command, admissible or not, committed or not, keeps the records sound and moves observed minus issued of every asset by exactly what it leaks, brings in from or loses to another asset, or pays half-way |
| Accounting.RunSound | src/ledger.c:49-202 | every run whatsoever leads to a ledger with sound records |
| Accounting.RunAccounts | src/ledger.c:474-495 | over every run whatsoever, for every asset: observed plus fees lost to foreign sinks is issued plus leaked deposits plus fees from foreign lanes plus payments of settlements stopped half-way, as integers |
| ForeignSink.ForeignSinkOutcomes | src/intent.c:400-442 | every end of a quoted settlement from a conserving ledger with any number of foreign sinks: committed, with conservation and status decided by the fee and the asset; or, when the sink refuses the fee, stopped with the parties paid and the reservation open |
| ForeignSink.ForeignSinkConservesIff | src/intent.c:408-442 | such a settlement conserves money and leaves its receipt if and only if there is no reserve fee or the sink holds the asset |
| ForeignSink.ForeignAllOrNothingIff | src/intent.c:400-442 | such a settlement is all or nothing if and only if, besides, a refused fee is the whole amount and the route carries nothing |
| ForeignSink.ReserveIgnoresSink | src/intent.c:195-276 | no reserve call depends on a lane's sink |
| ForeignSink.QuoteIgnoresSink | src/intent.c:278-338 | no quote depends on a lane's sink |
| ForeignSink.HalfwayPaysAgain | src/intent.c:400-420 | over a route that carries nothing, n calls of a settlement that a full sink refuses pay net amount and operator fee n times, for every n the accounts can take, and change nothing else |
| Examples.OverdepositExample | src/ledger.c:193-199 | a concrete run after which one more deposited unit is refused but stays in the account |
| Examples.ForeignSinkExample | src/intent.c:400-442 | a concrete run to a reservation on a lane with a foreign sink, and the two bad ends of settling it: for a sink with room, and for a full one |
| Examples.PaidAgainExample | src/intent.c:400-420 | a concrete ledger in which n settlement calls of one reservation leave its account with n units, for any n in 64 bits, of an asset of which two were issued |
| Examples.StrandedExample | src/intent.c:171-193 | a concrete run and intent whose reserve call is refused with a state error and leaves three quarters of the 64-bit range pending at a vault that owes nothing |
| Examples.StrandedForGood | src/intent.c:171-193 | after every later run those amounts are still pending on top of what is owed |
| Examples.StuckExample | src/intent.c:460-470 | a concrete run to an open reservation that no run ever closes |
| Runs.StepKeepsInvIff | src/ledger.c:49-202 | from a valid ledger, every command leads to a valid ledger if and only if it is admissible, whatever its status |
| Runs.RunKeepsInv | src/intent.c:195-484 | every run of admissible commands, failing ones included, keeps the invariant |
| Runs.RunConserves | src/ledger.c:474-508 | in every reachable ledger accounts, vaults and locked amounts add up to the issued supply as integers, and the wrapping total is that sum |
| Runs.StepEvolves | src/intent.c:195-484 | every step only adds records, closes reservations, appends to logs, and raises nonces, vault balances and supplies |
| Runs.RunEvolves | src/intent.c:195-484 | over whole runs history is append-only; settled and cancelled reservations never change again |
| NoStuckFunds.CancellableIff | src/intent.c:460-470 | an open reservation can be cancelled at some epoch if and only if its deadline is not the last epoch or it was made before its settlement window |
| NoStuckFunds.NeverClosesIff | src/intent.c:365-484 | on a lane without premium no run closes an open reservation if and only if it was made inside a settlement window that never ends and its plan cannot be quoted |
| NoStuckFunds.RefundAfterDeadline | src/intent.c:449-484 | past its deadline an open reservation cancels, refunds exactly the gross amount, and moves no other balance |
| NoStuckFunds.EverythingUnlocks | src/intent.c:449-484 | one cancellation per open reservation brings every asset's locked total to zero, with the whole supply back in accounts and vaults |
| NoStuckFunds.DrainSucceeds | src/intent.c:449-484 | with journal room for each of them, all of these cancellations report success |
| PendingExact.OwedUnderLocked | src/intent.c:107-109 | what a vault is owed is at most eight times what is locked of its asset |
| PendingExact.AdmittedRouteFits | src/intent.c:236-240 | with exact pending amounts and a supply below an eighth of 64 bits, adding an admitted route never fails |
| PendingExact.StepKeepsExact | src/intent.c:171-193 | under such supplies every command keeps pending amounts exact |
| PendingExact.StepKeepsExactIff | src/intent.c:171-193 | whatever the supplies, a command keeps pending amounts exact if and only if it is not an admitted reserve call for whose route some vault lacks room although its first loaded hop fits |
| PendingExact.RunExactIff | src/intent.c:171-193 | after any run pending amounts are exactly what open reservations owe if and only if no call of the run was of that kind |
| PendingExact.RunKeepsExcess | src/intent.c:171-193 | over every run the excess of pending over owed amounts never shrinks at any vault |
| PendingExact.RunKeepsExact | src/intent.c:171-193 | along every run with such supplies, pending amounts are exactly what open reservations owe |
| Replay.StepExplained | src/intent.c:246-264 | one command moves a balance by exactly what the logs record for it |
| Replay.AccountReplay | src/intent.c:408-435 | in every reachable ledger a balance is deposits less uncancelled gross amounts plus net amounts and operator fees of its receipts |
| Replay.VaultReplay | src/intent.c:416-420 | in every reachable ledger a vault holds its opening balance plus the reserve fees of receipts whose lane sinks there |
| Counting.DoubleCount | src/intent.c:424-434 | receipts counted by the reservation they name are each counted once |
| Counting.SettledHasReceipt | src/intent.c:421-434 | a reservation is settled if and only if some receipt names it |
| Counting.RunCounts | src/intent.c:152-162 | in every reachable ledger ids and intents are unique, nonces count reservations, and receipts and settled reservations correspond one to one and split the gross amounts within the signed limits |
| Counting.StepLogs | src/intent.c:264-268 | one call commits at most one operation, with one journal entry if there is room |
| Counting.JournalCountsCommitted | src/ledger.c:412-433 | in every reachable ledger the journal has min(96, committed operations) entries |
| Counting.CommittedOkIff | src/intent.c:264-268 | a call that commits reports success if and only if fewer than 96 operations were committed before it |
| Counting.JournalIsComplete | include/meridian/ledger.h:22-24 | with at most 32 committed deposits the journal holds one entry per committed operation |
| Counting.CommittedMeansOk | include/meridian/ledger.h:22-24 | in such runs a call that commits always reports success |
| Intents.SignatureOkIff | src/intent.c:68-86 | a signature is accepted if and only if some active account is the payer, signed as itself, and its seal over the terms matches |
| Intents.ReservedWasVouched | src/intent.c:195-238 | only an intent so signed, of this network and with the payer's next nonce, is ever reserved |
| Intents.ReservedAtMostOnce | src/intent.c:152-162 | once reserved, a signed intent is never reserved again after any later run |
| Quotes.WaitingNeverSpoilsQuote | src/intent.c:278-338 | a reservation quoted at an epoch is quoted at that epoch in every later ledger while it stays open, on recovery lanes too, with the same operator fee, no larger reserve fee and no smaller net |
| Commute.OtherUnaffected | src/intent.c:278-338 | a settlement changes neither the quote nor the settleability of another reservation without premium |
| Commute.SettlementsCommute | src/intent.c:365-447 | if two settlements without premium succeed in one order, they succeed in the other with the same books and the same logs as multisets |
| VaultViews.ViewsCountEveryLane | src/ledger.c:608-638 | every vault of a valid ledger has a view, available never exceeds the balance, and the views count every lane once at each end |
| VaultViews.ViewShowsRecord | src/ledger.c:608-638 | in a valid ledger the view of a vault shows its record, available is what the balance leaves beyond the outgoing amount, and never more than what open reservations leave of it |
| VaultViews.NoView | src/ledger.c:608-618 | a vault that is not there has no view |
| LedgerClass.Ledger.constructor | src/ledger.c:28-35 | a new ledger is empty, at epoch 1, and valid |
| LedgerClass.Ledger.FindAccount | src/ledger.c:280-290 | the loop finds the first active account with the id |
| LedgerClass.Ledger.FindReservation | src/ledger.c:376-386 | the loop finds the first reservation with the id |
| LedgerClass.Ledger.LockedTotal | src/ledger.c:459-472 | the wrapping loop computes the open gross amounts modulo 64 bits |
| LedgerClass.Ledger.TotalObserved | src/ledger.c:474-495 | the wrapping total; in a valid ledger it is the issued supply |
| LedgerClass.Ledger.CheckConservation | src/ledger.c:497-508 | whether the wrapping total equals the issued supply |
| LedgerClass.Ledger.Debit | src/ledger.c:204-222 | the debit, its errors and the state it leaves |
| LedgerClass.Ledger.Credit | src/ledger.c:224-242 | the credit, its errors and the state it leaves |
| LedgerClass.Ledger.CreditVault | src/ledger.c:244-260 | the vault credit, its errors and the state it leaves |
| LedgerClass.Ledger.UpdatePending | src/intent.c:171-193 | the loop over hops, earlier hops staying applied when a later one fails |
| LedgerClass.Ledger.AddAsset | src/ledger.c:49-71 | status and whole new state; a valid ledger stays valid |
| LedgerClass.Ledger.AddAccount | src/ledger.c:73-98 | status and whole new state; a valid ledger stays valid |
| LedgerClass.Ledger.AddVault | src/ledger.c:100-134 | status and whole new state; a valid ledger stays valid |
| LedgerClass.Ledger.AddLane | src/ledger.c:136-178 | status and whole new state; a valid ledger stays valid if the sink holds the asset |
| LedgerClass.Ledger.Deposit | src/ledger.c:180-202 | status and whole new state, the partial write included; validity is kept exactly when the deposit fits |
| LedgerClass.Ledger.ValidateHop | src/intent.c:88-111 | the catalogue checks of one hop: the verdict of its table |
| LedgerClass.Ledger.ValidatePlan | src/intent.c:113-150 | the catalogue checks of a plan: the verdict of its table |
| LedgerClass.Ledger.CheckDuplicateIntent | src/intent.c:152-162 | duplicate if and only if some reservation carries the intent id |
| LedgerClass.Ledger.VerifySignature | src/intent.c:68-86 | in a valid ledger accepts if and only if some account vouches for the intent: it is the payer, signed as itself, and its seal matches |
| LedgerClass.Ledger.Admit | src/intent.c:195-238 | every check before the first write of a reserve call; in a valid ledger the verdict of the admission table |
| LedgerClass.Ledger.ReserveIntent | src/intent.c:195-276 | status and whole new state of a reserve call in any state; a valid ledger stays valid, the status is the verdict of all checks, and success files the intent's reservation |
| LedgerClass.Ledger.QuoteReservation | src/intent.c:278-338 | the quote in any state; for a reservation of a valid ledger it is there if and only if the figures allow it, at exactly those fees, the recovery premium included |
| LedgerClass.Ledger.SettleReservation | src/intent.c:365-447 | status and whole new state in any state; from a valid ledger the status is the verdict of the checks, and what is committed are the figures and the receipt described above |
| LedgerClass.Ledger.CancelReservation | src/intent.c:449-484 | status and whole new state in any state; from a valid ledger the status is the verdict of the checks, and what is committed is the refund |
| LedgerClass.Ledger.Economics | src/ledger.c:580-606 | net and fees add up to the amount; in a valid ledger the view succeeds if and only if the lane exists and both products fit in 64 bits, and the fees are the floored shares |
| LedgerClass.Ledger.VaultExposure | src/ledger.c:608-638 | the loop over lanes counts the ends at this vault; in a valid ledger the view shows the vault's record |
| Risk.Accumulate | src/risk.c:204-235 | one position is added to all running totals, or rejected when a figure or a total does not fit |
| Risk.FitsShrinks | src/risk.c:9-19 | an overflow of a running total is an overflow of the final one, so the order of additions does not matter |
| Risk.Concentrate | src/risk.c:239-268 | the second loop gathers add-on, index and largest share, or rejects |
| Risk.IndexFits | src/risk.c:250-254 | the 32-bit index never wraps |
| Risk.CoverageBps | src/risk.c:45-60 | the coverage computation without a product |
| Risk.AnalyzePortfolio | src/risk.c:189-297 | the two loops and the capital gate return exactly the analysis, errors included, that `RiskFigures.AnalysisIs` gives entry by entry |
| Risk.RiskPortfolio.constructor | src/risk.c:163-167 | a new portfolio is empty and well-formed |
| Risk.RiskPortfolio.Insert | src/risk.c:169-187 | appends a well-formed position with a new lane, or refuses without change; portfolios stay well-formed |
| RiskFigures.InsertAnswer | src/risk.c:169-187 | a position is taken if it is named, at rates within the whole, there is room and its lane is new; otherwise the first failing check answers |
| RiskFigures.ExpectedLossIs | src/risk.c:62-73 | the expected loss is the floored pending amount at the default rate, floored at the rate not recovered, and can be computed whenever the first product fits |
| RiskFigures.LossBounds | src/risk.c:62-73 | it never exceeds what is pending, never grows with recovery, and is nothing at full recovery |
| RiskFigures.GapIs | src/risk.c:75-85 | the liquidity gap is what is pending beyond the liquidity after the haircut |
| RiskFigures.GapBounds | src/risk.c:75-85 | it lies between what is pending beyond the liquidity and what is pending, and never grows with liquidity |
| RiskFigures.AddOnIs | src/risk.c:248-266 | the charge for concentration: the pending amount at the share above the threshold, at the charge rate |
| RiskFigures.AnalysisIs | src/risk.c:189-297 | a well-formed portfolio is answered by its first failing check, or gets a report whose every entry, and decision, is the stated sum, maximum or quotient of the positions' fields |
| RiskProofs.SharesAddUp | src/risk.c:240-249 | the shares of a portfolio are at most 100 % together and short of it by less than a point per active position |
| RiskProofs.HhiBounds | src/risk.c:240-254 | in every accepted report the index lies between the Cauchy-Schwarz bound for n positions and the largest share |
| RiskProofs.CoverageExact | src/risk.c:45-60 | coverage is min(30000, floor(available * B / required)) |
| RiskProofs.CoverageAntitone | src/risk.c:45-60 | a larger requirement never gives more coverage |
| RiskProofs.GatesAgree | src/risk.c:277-297 | enough coverage means no shortfall, and no shortfall means coverage within one point of the minimum for requirements of at least B |
| RiskProofs.PolicyMonotone | src/risk.c:189-297 | a policy at least as strict in all seven fields never reports less loss, gap, add-on, capital or shortfall, more coverage, or a more lenient decision |
| RiskProofs.MilderAcceptedIff | src/risk.c:189-297 | a portfolio accepted under a stricter policy is accepted under a milder valid one if and only if every active position's liquidity fits the milder haircut |
| RiskProofs.SevereIsHarder | src/risk.c:118-142 | both presets are valid; what the severe one accepts the operating one accepts exactly when its haircut fits, and then the severe report is the harder |
| RiskProofs.OrderIndependent | src/risk.c:189-297 | the whole analysis, status included, depends only on the multiset of active positions |
| RiskFigures.LargestIs | src/risk.c:248-252 | the largest share is some position's, and none is larger |
| RiskReport.ReportFits | src/risk.c:87-116 | the text of every accepted report fits its 2048-character buffer, so the digest step never fails |
| RiskReport.ReportTextInjective | src/risk.c:87-116 | two reports with the same text are the same report |
| RiskReport.ReportReadsBack | src/risk.c:87-116 | reading the text under the published names gives every figure of the report back |
| Scenarios.RecoveryFigures | src/runtime.c:524-567 | the repository's recovery run: premium 6000, reserve fee 6200, operator fee 250, net 93550 |
| Scenarios.ScenarioReports | src/runtime.c:790-829 | the repository's risk portfolio: the operating policy asks for 383890 and approves, the severe one asks for 1302681 and holds |
| Codec.DecimalRoundTrip | src/codec.c:67-79 | reading a printed number back gives the number |
| Codec.PlanRoundTrip | src/route.c:60-93 | parsing the canonical text of a plan gives back all its fields, its visible hops in their positions, and each hop's digest |
| Codec.PlanTextInjective | src/route.c:60-93 | plans with the same canonical text are the same plan, whatever the hop digests |
| Codec.IntentRoundTrip | src/intent.c:21-42 | parsing an authorization payload gives back every signed field and the plan digest, whatever characters the memo contains |
| Codec.IntentTextInjective | src/intent.c:21-42 | equal payloads commit to equal terms and plan digests |
| Codec.PlanLength | src/route.c:95-102 | a plan of at most eight hops prints in at most 3932 characters, within its 4096-character buffer |
| Codec.IntentLength | src/intent.c:44-51 | a payload prints in at most 464 characters, within its 1024-character buffer |
| CodecWriter.Writer.constructor | src/codec.c:37-48 | a fresh writer over any buffer, an empty one included |
| CodecWriter.Writer.Put | src/codec.c:8-55 | the buffer always holds everything asked for, cut to its capacity and terminated; the first overflow fixes the status for good |
| CodecWriter.Writer.PutField | src/codec.c:57-65 | a named field is appended in its printed form |
| CodecWriter.Writer.PutNumber | src/codec.c:67-83 | a named number is appended in its printed form |
| CodecWriter.Writer.PutDigest | src/codec.c:85-91 | a named digest is appended in its printed form |
| CodecWriter.PlanCanonical | src/route.c:60-93 | the sequence of appends leaves exactly the canonical text, or its longest fitting prefix and a capacity error |
| CodecWriter.PlanDigest | src/route.c:95-102 | a plan of at most eight hops is digested by its whole text; the fallback is taken only beyond eight hops |
| CodecWriter.AuthorizationPayload | src/intent.c:21-42 | the sequence of appends leaves exactly the payload text, or its longest fitting prefix and a capacity error |

## Left out

- Hash mixing, identities and signing keys (src/crypto.c, the lanes of src/digest.c): hashes are arbitrary functions, and a
  signature is a signer plus a sealed digest that is compared. Collision resistance is neither assumed nor claimed.
- src/runtime.c, src/main.c, JSON output and the built-in scenarios, but for the figures in `Scenarios`: input and output.
- Status and decision names, amount formatting and null-pointer checks: trivial.
- `md_ledger_debit_vault`: nothing calls it.
- The texts behind the state digest, the receipt digest and the two view digests: the same printing pattern as the plan
  and report texts. Here a receipt's id is an arbitrary function of its other fields.
- Symbols, labels, roles, decimals and the receipt nonce of accounts and assets: stored or counted, and never read by a decision.
- Truncation of over-long C strings, `memset`, struct padding, native byte order in hop digests: representation.
- Bounded C arrays with a counter are sequences with the same capacity checks; slots beyond the counter are not modelled,
  except in hop compaction and the writer, which work on arrays.
- Failing risk analyses fill part of their output; only the status is modelled on failure.
- RiskFigures.AnalysisIs: is about portfolios put together by `Risk.RiskPortfolio.Insert`, which refuses rates above the
  whole; `Risk.Analyze` models the 32-bit subtraction for others.
- The lane's identity fields, which the economics view copies.
- Runs.RunKeepsInv: excludes deposits beyond the supply and lanes with a foreign sink, because for those the invariant is
  false; `Runs.StepKeepsInvIff` shows that nothing else is excluded, and `Accounting.RunAccounts` covers every run.
- Replay.AccountReplay: covers the same runs as Runs.RunKeepsInv.
- Commute.SettlementsCommute: does not cover recovery lanes, whose quotes read vault balances that a settlement changes.
