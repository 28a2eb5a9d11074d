# Penrose: the market registry, its money, and its deployment

Penrose is the registry of Tapioca's lending markets. Seven indexes describe the same
markets: two lists of master contracts with their flags, `isMarketRegistered`,
`masterContractOf`, `clonesOf`, `allBigBangMarkets`, and the Origins list with its flag. They
are written by push, by swap-and-pop after a linear search, and by flag writes, and they are
read by loops that add up debt, mint, accrue, call markets and pay out fees. The project
models the contract, the zero-first approval it relies on, the two liquidator receivers, and
the two parts of the deployment scripts that compute something: the planners that register
what is missing, and the sizing of the first loans.

| file | what it holds |
|---|---|
| `Evm.dfy` | addresses, words, reverts, Solidity mappings |
| `Lists.dfy` | swap-and-pop, and sums over lists and over sets |
| `Registry.dfy` | the registry's storage as a value, and what each call does to it |
| `RegistryInvariants.dfy` | what every run keeps, and exactly when all indexes agree |
| `RegistryRefinement.dfy` | the registry as one map from markets to kind and master contract |
| `Tokens.dfy`, `SafeApprove.dfy` | ERC-20 ledgers (EIP-20, "Methods") with their usual deviations; zero-first approval |
| `RegistryOutcomes.dfy` | when each registry call goes through, what it writes, and whose calls count |
| `Treasury.dfy` | debt, minting, fees, accrual and owner calls, as functions of the registry |
| `TreasuryOutcomes.dfy` | exactly when debt, minting, fees, accrual and owner calls go through |
| `Penrose.dfy` | the contract: a class with the storage variables as fields |
| `Liquidation.dfy`, `LiquidatorReceivers.dfy` | the two receivers, as functions and as classes |
| `LiquidationOutcomes.dfy` | exactly when a liquidation goes through; the receivers' settings after any history |
| `BorrowSizing.dfy`, `Planning.dfy` | the deployment arithmetic and the registration planners |

`dafny verify dfyconfig.toml` verifies all of it.

## How to read it

A class method does what the Solidity function does, step by step, and puts its writes back
when it reverts, as the EVM does. Its postcondition ties the new state to a function on
values; the theorems are about those functions and about whole runs of calls. A run is any
sequence of transactions by any senders; a call that reverts leaves the state as it was.

* The three modules named Outcomes say when a call goes through and what it writes, from the
  storage before it, the numbers and flags a caller can look up, and the answers of other
  contracts. For mints and fees they start, as the conservation results do, from a world
  without open allowances to twTap, which every sequence of flows keeps (`FlowsStaySettled`).
* `Consistent` says that the lists match their flags and that every registered market is in
  the clone list of a registered master contract. Whatever market types are passed, a
  successful call keeps it unless it is a bare `deploy`, under a master contract that is not
  registered, at the address of a registered market; and that one breaks it
  (`ConsistentExactly`, `RunConsistentExactly`). Such a deployment is possible, since
  `addSingularity` and `addBigBang` accept an address before there is code at it.
* `Faithful` says that all indexes agree. `AgreementExactly` shows that a successful call
  keeps it if and only if the call is `WellTyped`, a condition on the storage before the call:
  the master contract is not zero, the market or clone is not listed yet, and the market type
  is the one the market entered with. `RunAgreesExactly` lifts this to runs.
* Two promises fail, and the project says exactly when. `allBigBangMarkets` comes to repeat a
  market exactly when a successful `addBigBang` or `registerBigBang` pushes an address that
  stands in the list (`NoRepetitionExactly`, `RunRepeatsExactly`); a BigBang market that is
  removed as a Singularity and added again does that (`WrongTypeRepeatsMarket`).
  `viewTotalDebt` then counts it twice (`WrongTypeCountsDebtTwice`); in any state the total is
  the sum over the set of live markets exactly when whatever is repeated owes nothing
  (`DebtIsASetSumExactly`). `mintOpenInterestDebt` is not affected (`MintConserves`), since a
  market hands over its open interest only once.
* Other contracts appear through what they answer. A market that is missing from a map does
  not answer that call, and the call reverts. YieldBox's price for shares and a market's
  answer to an owner call are arbitrary functions. `accrue` and owner calls are recorded as a
  trace. A swap may spend less than it was allowed, deliver what it likes and report any
  amount.

Where the code and its documentation differ, the model follows the code: the comment on
`unregisterContract` names three market types, but every number other than 1 and 2 is treated
as 0; and `test/btt/unit/concrete/Penrose/Penrose_unregisterMarket.tree:12` expects removal of
an Origins market to shorten `clonesOf`, which the code does not touch
(`contracts/Penrose.sol:482`).

## Model

| member | source | states |
|---|---|---|
| Lists.SwapPopTakesOne | contracts/Penrose.sol:471-473 | swap-and-pop takes exactly one occurrence of the element at the index |
| Lists.SwapPopMoves | contracts/Penrose.sol:471-473 | nothing moves but the last element, which fills the gap |
| Lists.RemoveOneNoDup | contracts/Penrose.sol:484-486 | in a list without repetition removal is set difference and introduces no repetition |
| Lists.RemovePushed | contracts/Penrose.sol:484-486 | removing what was pushed last gives the list back, order included |
| Lists.ListSumIsSetSum | contracts/Penrose.sol:223-228 | a list sum is at least the sum over its set of elements, and equal exactly when repeated elements are worth nothing |
| RegistryInvariants.StepKeepsListsMatchFlags | contracts/Penrose.sol:424-563 | every call, well typed or not, keeps both master-contract lists and the Origins list free of repetition and equal to their flags |
| RegistryInvariants.RunKeepsListsMatchFlags | contracts/Penrose.sol:424-563 | the same after any transactions, clones created anywhere |
| RegistryInvariants.ConsistentExactly | contracts/Penrose.sol:250-563 | every successful call, well typed or not, keeps each registered market under a registered master contract and in that contract's clone list, if and only if it is not a bare deployment at a registered market under an unregistered master contract |
| RegistryInvariants.RunConsistentExactly | contracts/Penrose.sol:250-563 | that holds in every state of a run if and only if no such deployment goes through |
| RegistryInvariants.EveryRegisteredMarketIsListed | contracts/Penrose.sol:197-205 | from an empty registry, whatever else is called, every registered market shows in `singularityMarkets()` or `bigBangMarkets()` |
| RegistryInvariants.LinkExactly | contracts/Penrose.sol:281-282 | listing an address keeps `clonesOf` the inverse of `masterContractOf` if and only if it had no master contract |
| RegistryInvariants.CreateExactly | contracts/Penrose.sol:498-543 | deploying or registering a clone keeps all indexes in agreement if and only if its address was not listed |
| RegistryInvariants.AddExactly | contracts/Penrose.sol:516-556 | adding a market keeps all indexes in agreement if and only if it was not listed, bare clones of `deploy` included |
| RegistryInvariants.UnregisterExactly | contracts/Penrose.sol:461-490 | removal keeps all indexes in agreement if and only if the market type fits |
| RegistryInvariants.AgreementExactly | contracts/Penrose.sol:250-563 | any successful call keeps all indexes in agreement if and only if it is well typed |
| RegistryRefinement.StepSimulates | contracts/Penrose.sol:250-563 | forward simulation of the map market -> (kind, master contract), successes and errors alike |
| RegistryRefinement.RunAgreesExactly | contracts/Penrose.sol:250-563 | the indexes agree in every state of a run if and only if every call that goes through is well typed |
| RegistryRefinement.RunSimulates | contracts/Penrose.sol:250-563 | a well-typed run of the registry is a run of the map |
| RegistryRefinement.ModelReadsIndexes | contracts/Penrose.sol:65-93 | each index holds exactly what the map says, without repetition |
| RegistryRefinement.OnlyOrderIsHidden | contracts/Penrose.sol:65-93 | registries with the same map hold the same elements in every list, master contracts with their risks included, and are equal in everything but the order of those lists |
| RegistryRefinement.FlattenNoDup | contracts/Penrose.sol:666-703 | a view over distinct master contracts lists exactly their markets, each once |
| RegistryRefinement.FlattenInOrder | contracts/Penrose.sol:666-703 | a view lists its master contracts' clones one after another, in their order |
| RegistryRefinement.BigBangIndexesAgreeExactly | contracts/Penrose.sol:203-205 | `bigBangMarkets()` is a permutation of `allBigBangMarkets` if and only if only BigBang markets stand under BigBang master contracts; neither view repeats a market |
| RegistryRefinement.BigBangIndexesAgree | contracts/Penrose.sol:530-556 | so it is after every well-typed run without bare `deploy` in which no master contract is in both families |
| RegistryRefinement.RemovalCutsOff | contracts/Penrose.sol:461-490 | a removed market, whatever the type passed, stays unregistered and without master contract until it is added or created again |
| RegistryRefinement.RemovalTakesOne | contracts/Penrose.sol:461-490 | removal takes one occurrence from each list it touches and nothing from the others, in any state |
| RegistryOutcomes.RemovalGoesThroughExactly | contracts/Penrose.sol:461-490 | type 1 needs the address in `allBigBangMarkets`, type 2 in `allOriginsMarkets`, every type but 2 in the clone list of its master contract; nothing else stops a removal |
| RegistryOutcomes.RemovalWrites | contracts/Penrose.sol:461-490 | each list that was searched loses its first entry of the address, the last element filling the gap; flags and link are cleared; no other list or entry changes |
| RegistryOutcomes.StepRevertsExactly | contracts/Penrose.sol:250-563 | for every error, exactly which calls meet it in which states, and that no other error occurs |
| RegistryOutcomes.StepWrites | contracts/Penrose.sol:250-563 | index by index, what a successful call other than removal appends, flags and links, and that it writes nothing else |
| RegistryOutcomes.OnlyOwnerCounts | contracts/Penrose.sol:250-563 | a run is what the owner's transactions make of the registry: anyone else's change nothing, wherever they come in between |
| RegistryRefinement.ListThenUnregister | contracts/Penrose.sol:461-556 | adding or creating a market and removing it at once restores all storage, list order included, if and only if it was not listed before |
| RegistryRefinement.OriginsThenUnregister | contracts/Penrose.sol:474-480 | the same for Origins, if and only if the address is no other kind of market |
| RegistryInvariants.NoRepetitionExactly | contracts/Penrose.sol:461-556 | a successful call keeps `allBigBangMarkets` free of repetition if and only if it does not push an address that stands in it, in any state |
| RegistryInvariants.RunRepeatsExactly | contracts/Penrose.sol:461-556 | the list repeats no market in any state of a run if and only if no such call goes through |
| RegistryRefinement.WrongTypeRepeatsMarket | contracts/Penrose.sol:482-487 | a run of successful calls after which one market stands twice in `allBigBangMarkets` |
| Treasury.DebtIsASetSum | contracts/Penrose.sol:219-231 | where the indexes agree the total debt is a sum over the set of BigBang markets, with its two ways to revert |
| Treasury.RunDebt | contracts/Penrose.sol:219-231 | after any well-typed run it is the sum over the BigBang markets of the map |
| Treasury.DebtIsASetSumExactly | contracts/Penrose.sol:219-231 | in any state it is that sum if and only if every market that stands twice owes nothing |
| TreasuryOutcomes.TotalDebtGoesThroughExactly | contracts/Penrose.sol:219-231 | in any state the view goes through if and only if every live market answers and the sum over the list's registered entries is below 2^256, and then returns that sum |
| Treasury.AddingRaisesDebt | contracts/Penrose.sol:530-556 | registering a BigBang market, in any state, raises `viewTotalDebt()` by its debt times the number of new entries the loop meets; the view then reverts exactly when the market does not answer or the new total overflows |
| Treasury.AddingRaisesDebtOnce | contracts/Penrose.sol:530-556 | where the indexes agree and the call is well typed, it rises by exactly the market's debt, or reverts for the same two reasons |
| Treasury.RemovingLowersDebt | contracts/Penrose.sol:461-490 | removing any market with any type, in any state, lowers `viewTotalDebt()` by its debt times the number of entries the loop met before |
| Treasury.RemovingLowersDebtOnce | contracts/Penrose.sol:461-490 | where the indexes agree it falls by exactly what a BigBang market owed, and by nothing for any other address, whatever type was passed |
| Treasury.WrongTypeCountsDebtTwice | contracts/Penrose.sol:219-231 | the spoiled run counts one market's debt twice |
| Treasury.PullNetEffect | contracts/Penrose.sol:659-664 | approve, pull, approve 0 succeeds exactly when twTap pulls the approved token and Penrose has it, and then only moves the amount |
| Treasury.DistributeNetEffect | contracts/Penrose.sol:659-664 | with no open allowance a distribution never gets stuck on approval and leaves every allowance as it was, whatever index twTap gave the asset |
| Treasury.MintConserves | contracts/Penrose.sol:308-328 | each live market hands over its open interest once; supply and twTap's balance grow by exactly the sum; no other balance or allowance changes |
| Treasury.SecondMintMintsNothing | contracts/Penrose.sol:308-328 | an immediate second mint changes nothing |
| Treasury.MintClearsDebt | contracts/Penrose.sol:219-231 | right after a mint, in any state, `viewTotalDebt()` is 0, since markets empty the very variable it adds up (`contracts/markets/bigBang/BigBang.sol:250-254`) |
| Treasury.MintIssuesTotalDebt | contracts/Penrose.sol:308-328 | where the indexes agree, a mint issues exactly what `viewTotalDebt()` showed before it |
| TreasuryOutcomes.MintGoesThroughExactly | contracts/Penrose.sol:308-328 | a mint goes through if and only if every live market answers, the sum fits a word and, unless it is 0, USDO is a plain token, Penrose is its minter, the supply has room, and twTap holds USDO at the index it gives |
| Treasury.FeeStepConserves | contracts/Penrose.sol:642-657 | one market: what YieldBox pays reaches twTap, and Penrose's balances, shares and allowances end as they began |
| TreasuryOutcomes.FeeStepGoesThroughExactly | contracts/Penrose.sol:642-657 | a step goes through if and only if the market is registered, answers, and its shares, if any, are held, backed and payable to twTap; without shares it changes nothing |
| TreasuryOutcomes.FeeStepBooks | contracts/Penrose.sol:642-657 | the market's shares are destroyed and paid for out of the asset's backing at the quoted amount; no other holder or asset is touched |
| Treasury.FeeBatchConserves | contracts/Penrose.sol:291-303 | a batch: twTap receives per token the sum of the quoted amounts, and Penrose ends as it began |
| TreasuryOutcomes.FeeBatchGoesThroughExactly | contracts/Penrose.sol:291-303 | a batch goes through if and only if every market is registered and payable when its turn comes |
| TreasuryOutcomes.FeelessMarketsPass | contracts/Penrose.sol:646 | registered markets without fees never stop a batch |
| Treasury.UnregisteredStopsBatch | contracts/Penrose.sol:642-643 | one unregistered market anywhere reverts the whole batch |
| Treasury.FeeStepBalancedExactly | contracts/Penrose.sol:648-656 | Penrose's balances are kept if and only if YieldBox's token for the market's asset number is the market's asset |
| Treasury.FlowsStaySettled | contracts/Penrose.sol:291-328 | through any sequence of mints and fee batches no allowance to a twTap is ever left |
| Treasury.AccrualReachesEachOnce | contracts/Penrose.sol:627-640 | an accrual calls every BigBang market but the excluded main one exactly once |
| TreasuryOutcomes.AccrualGoesThroughExactly | contracts/Penrose.sol:627-640 | where the indexes agree, an accrual goes through if and only if every BigBang market but the excluded one answers, and appends one call for each in the order of `allBigBangMarkets` |
| Treasury.CallLogLinesUp | contracts/Penrose.sol:569-590 | entry i of the log is the call of target i with data i, answered in the light of the calls before it |
| TreasuryOutcomes.ExecutionGoesThroughExactly | contracts/Penrose.sol:569-590 | a batch goes through if and only if targets and data match in number, each target's master contract is flagged in either family, each target has code, and, when forced, each answer in the light of the calls before it is a success |
| Treasury.RemovedOwesNothing | contracts/Penrose.sol:461-490 | after removal and any later transactions that do not introduce it again, the total debt and every mint are the same whatever the market owes, and a mint leaves its open interest as it was |
| Treasury.RemovedIsUnused | contracts/Penrose.sol:461-490 | nor is it accrued, and any fee batch that names it reverts, as does any batch of owner calls unless address 0 is a master contract |
| Penrose.Penrose.RegisterSingularityMasterContract | contracts/Penrose.sol:424-439 | flags and lists the master contract once, for the owner only; otherwise the error and the storage as it was |
| Penrose.Penrose.RegisterBigBangMasterContract | contracts/Penrose.sol:445-455 | the same for BigBang |
| Penrose.Penrose.Deploy | contracts/Penrose.sol:250-286 | the clone is listed both ways, never at address 0; a failing initialiser restores the storage |
| Penrose.Penrose.RegisterSingularity | contracts/Penrose.sol:498-510 | deploys and registers, or restores the storage |
| Penrose.Penrose.RegisterBigBang | contracts/Penrose.sol:530-543 | deploys, registers and lists, or restores the storage |
| Penrose.Penrose.AddSingularity | contracts/Penrose.sol:516-522 | flags the market and lists it both ways, or gives the error of the transition that StepSimulates relates to the map |
| Penrose.Penrose.AddBigBang | contracts/Penrose.sol:549-556 | the same, and in `allBigBangMarkets` |
| Penrose.Penrose.AddOriginsMarket | contracts/Penrose.sol:558-563 | flags and lists the address once, or gives the error |
| Penrose.Penrose.FindBigBangIndex | contracts/Penrose.sol:617-625 | the first position of the address, or a revert exactly when it is absent |
| Penrose.Penrose.SwapAndPop | contracts/Penrose.sol:470-486 | the list without one occurrence, the last element in the gap |
| Penrose.Penrose.UnregisterContract | contracts/Penrose.sol:461-490 | the whole storage follows the removal that RemovalGoesThroughExactly and RemovalWrites describe by the numbers 1 and 2, or, when a search fails after flags were cleared, it is as it was |
| Penrose.Penrose.CountClones | contracts/Penrose.sol:671-681 | the length of the listing modulo 2^256, as unchecked addition gives it |
| Penrose.Penrose.CopyInto | contracts/Penrose.sol:694-699 | the clones are appended in place, or a write falls outside the array |
| Penrose.Penrose.GetAllMasterContractClones | contracts/Penrose.sol:666-703 | the array sized by the first pass is filled by the second to its last slot: exactly the concatenation of the clone lists, or a panic when its length is 2^256 or more |
| Penrose.Penrose.SingularityMarkets | contracts/Penrose.sol:197-199 | the view over the Singularity master contracts, or the same panic |
| Penrose.Penrose.BigBangMarkets | contracts/Penrose.sol:203-205 | the view over the BigBang master contracts, or the same panic; its agreement with `allBigBangMarkets` is BigBangIndexesAgreeExactly |
| Penrose.Penrose.ViewTotalDebt | contracts/Penrose.sol:219-231 | the loop returns the total debt, and reverts exactly when a live market does not answer or the sum overflows |
| Penrose.Penrose.ConsumeOpenInterest | contracts/Penrose.sol:309-317 | the loop's sum is the set sum of the live markets' open interest, which is zero afterwards |
| Penrose.Penrose.MintOpenInterestDebt | contracts/Penrose.sol:308-328 | by the owner, all of the mint that MintGoesThroughExactly and MintConserves describe, or nothing |
| Penrose.Penrose.DistributeOnTwTap | contracts/Penrose.sol:659-664 | the three ledger writes of a distribution |
| Penrose.Penrose.DepositFeesToTwTap | contracts/Penrose.sol:642-657 | one market's fees, as FeeStepGoesThroughExactly, FeeStepBooks and FeeStepConserves describe them |
| Penrose.Penrose.WithdrawAllMarketFees | contracts/Penrose.sol:291-303 | the whole batch of FeeBatchGoesThroughExactly and FeeBatchConserves in order, by the owner, unpaused, or nothing |
| Penrose.Penrose.ReAccrueMarkets | contracts/Penrose.sol:627-640 | accrues the targets in list order |
| Penrose.Penrose.ReAccrueBigBangMarkets | contracts/Penrose.sol:608-612 | acts only for the main market, and only unpaused |
| Penrose.Penrose.SetBigBangEthMarket | contracts/Penrose.sol:375-391 | if a main market was set, the trace of an accrual without it precedes the switch and carries the outgoing main market |
| Penrose.Penrose.CallMarket | contracts/Penrose.sol:579-584 | a call happens exactly when the target's master contract is registered in either family and it has code |
| Penrose.Penrose.ExecuteMarketFn | contracts/Penrose.sol:569-590 | by the owner, all calls of the batch that ExecutionGoesThroughExactly admits, in order, results lined up with them, or none |
| SafeApprove.SafeApprove | contracts/libraries/SafeApprove.sol:20-32 | from any allowance the final one is exactly the value and nothing else changes; it fails exactly on addresses without code, refusing tokens and tokens that reject a zero approval |
| SafeApprove.DirectApproval | contracts/libraries/SafeApprove.sol:20-32 | why zero first: on the same tokens a direct approval fails if and only if it would change one nonzero allowance to another on a token that refuses that |
| Liquidation.OnlyAdmittedLiquidate | contracts/liquidators/MarketLiquidatorReceiver.sol:81-88 | a liquidation goes through only for an allowed initiator, a whitelisted market and receiver, enough collateral and calldata of its kind; a stranger is refused, and the whitelist, balance and calldata errors mean exactly that their check and no earlier one failed |
| LiquidationOutcomes.PlainGoesThroughExactly | contracts/liquidators/MarketLiquidatorReceiver.sol:74-117 | a liquidation goes through if and only if the checks pass, the collateral unwraps, the order sells the unwrapped token and buys the market's, and swap and payment are covered; any other pair of tokens, or a stranger, is NotAuthorized, and nothing else is |
| LiquidationOutcomes.GlpGoesThroughExactly | contracts/liquidators/sGlpMarketLiquidatorReceiver.sol:99-139 | the same through the redemption: the order must sell what the redemption bought |
| Liquidation.StageNetEffect | contracts/liquidators/MarketLiquidatorReceiver.sol:108-111 | approve, swap, approve 0 leaves exactly the swap's two movements and no allowance |
| Liquidation.StageMeetsNoGuard | contracts/liquidators/MarketLiquidatorReceiver.sol:108 | with no open allowance the nonzero-allowance guard does not stop a swap |
| Liquidation.PlainLiquidationPays | contracts/liquidators/MarketLiquidatorReceiver.sol:74-117 | the market is paid exactly the amount, at least the minimum; all token and ether balances change by the unwrapping, the wrapping of ether, the swap and the payment only, on the ERC-20 and the native branch |
| Liquidation.GlpLiquidationPays | contracts/liquidators/sGlpMarketLiquidatorReceiver.sol:99-175 | the same through both stages, each with its own floor; no ether moves when the underlying is a token |
| Liquidation.PlainMarketGains | contracts/liquidators/MarketLiquidatorReceiver.sol:113-114 | a market that is no other party gains exactly the reported amount of its token and nothing of any other |
| Liquidation.GlpMarketGains | contracts/liquidators/sGlpMarketLiquidatorReceiver.sol:135-136 | the same after both stages |
| Liquidation.HistoryLeavesNoGrants | contracts/liquidators/MarketLiquidatorReceiver.sol:74-124 | over any history of liquidations, swapper changes and outside events no allowance is left and the guard never blocks |
| LiquidationOutcomes.OwnersLastWordOnParticipants | contracts/liquidators/MarketLiquidatorReceiver.sol:129-132 | after any history an address may liquidate if and only if the owner's last call about it allowed it |
| LiquidationOutcomes.OwnersLastWordOnSwapper | contracts/liquidators/MarketLiquidatorReceiver.sol:121-124 | after any history the swapper is the one the owner named last |
| LiquidatorReceivers.Site.GuardedApprove | contracts/liquidators/MarketLiquidatorReceiver.sol:108 | OpenZeppelin's guarded approval |
| LiquidatorReceivers.Site.Swap | contracts/liquidators/MarketLiquidatorReceiver.sol:108-111 | one stage of a swap |
| LiquidatorReceivers.MarketLiquidatorReceiver.OnCollateralReceiver | contracts/liquidators/MarketLiquidatorReceiver.sol:74-117 | the whole liquidation that PlainGoesThroughExactly admits and PlainLiquidationPays accounts for, or an error and nothing changed |
| LiquidatorReceivers.MarketLiquidatorReceiver.SetSwapper | contracts/liquidators/MarketLiquidatorReceiver.sol:121-124 | the owner changes the swapper and nothing else |
| LiquidatorReceivers.MarketLiquidatorReceiver.SetAllowedParticipant | contracts/liquidators/MarketLiquidatorReceiver.sol:129-132 | the owner changes one participant and nothing else |
| LiquidatorReceivers.SGlpMarketLiquidatorReceiver.SellGlp | contracts/liquidators/sGlpMarketLiquidatorReceiver.sol:167-175 | the redemption stage with its floor |
| LiquidatorReceivers.SGlpMarketLiquidatorReceiver.OnCollateralReceiver | contracts/liquidators/sGlpMarketLiquidatorReceiver.sol:99-139 | the whole two-stage liquidation that GlpGoesThroughExactly admits and GlpLiquidationPays accounts for, or an error and nothing changed |
| LiquidatorReceivers.SGlpMarketLiquidatorReceiver.SetSwapper | contracts/liquidators/sGlpMarketLiquidatorReceiver.sol:143-146 | the owner changes the swapper and nothing else |
| LiquidatorReceivers.SGlpMarketLiquidatorReceiver.SetAllowedParticipant | contracts/liquidators/sGlpMarketLiquidatorReceiver.sol:151-154 | the owner changes one participant and nothing else |
| BorrowSizing.FullAmountBounds | tasks/deploy/1-2-deployPostLbp.ts:238-242 | the two roundings never give too much, and too little only by the stated amount |
| BorrowSizing.FullAmountRoundsTwice | tasks/deploy/1-2-deployPostLbp.ts:238-242 | the amount is the one number that rounding down twice, at 10^36 and at 10^18, gives |
| BorrowSizing.BorrowAmountBounds | tasks/deploy/1-2-deployPostLbp.ts:238-254 | at a margin the loan is covered by the collateral, exact up to rounding, and negative exactly for margins far enough above 100%; a surcharge is rounded down; a zero rate throws |
| BorrowSizing.CoveredExactly | tasks/deploy/1-2-deployPostLbp.ts:243-245 | the loan is covered at every rate and amount if and only if the margin is not negative |
| BorrowSizing.BorrowAmountOrder | tasks/deploy/1-2-deployPostLbp.ts:238-254 | more collateral never borrows less, a higher rate or margin never more |
| Planning.Setup.SetupRegisterMCInPenrose | tasks/deploy/postDepSetup/setupRegisterMCInPenrose.ts:19-59 | pushes exactly the missing master-contract registrations |
| Planning.Setup.RegisterMarket | tasks/deploy/postDepSetup/setupRegisterBBAndSGLMarketsInPenrose.ts:17-37 | pushes one add call exactly when the market is not registered |
| Planning.Setup.RegisterHostMarkets | tasks/deploy/postDepSetup/setupRegisterBBAndSGLMarketsInPenrose.ts:39-111 | the add calls of the host chain, in order |
| Planning.Setup.SetupRegisterBBAndSGLMarketsInPenrose | tasks/deploy/postDepSetup/setupRegisterBBAndSGLMarketsInPenrose.ts:39-127 | the missing markets of the chain, in order |
| Planning.Setup.SetupPostLbp1 | tasks/deploy/1-1-setupPostLbp.ts:58-59 | both planners, reading the same state |
| Planning.PlanListsExactly | tasks/deploy/postDepSetup/setupRegisterBBAndSGLMarketsInPenrose.ts:39-127 | the plan holds exactly the chain's unregistered markets under their family's master contract, and the missing master contracts with risk 1 |
| Planning.FreshPlan | tasks/deploy/1-1-setupPostLbp.ts:58-59 | on a registry where nothing is registered, the host chain's eight calls and the side chain's two, in order |
| Planning.AddCallsRun | contracts/Penrose.sol:516-556 | adding unregistered markets in one batch succeeds if and only if none is added twice |
| Planning.MasterCallsRun | tasks/deploy/postDepSetup/setupRegisterMCInPenrose.ts:19-59 | the planned registrations never revert and leave every needed master contract registered |
| Planning.PlanConverges | tasks/deploy/1-1-setupPostLbp.ts:57-63 | the plan executes without a revert if and only if no two missing markets share an address, and planning again then plans nothing |
| Planning.PlanKeepsAgreement | tasks/deploy/1-1-setupPostLbp.ts:57-63 | with nonzero master contracts and unlisted, distinct markets the batch also keeps all indexes in agreement |

## Left out

- `executeTargetFn` (`contracts/Penrose.sol:593-600`): a delegatecall may write any storage slot, so no invariant survives it.
- An owner call through `executeMarketFn` to a market that is itself an ERC-20 token could approve a spender for Penrose; `FlowsStaySettled` speaks of mints and fee batches only.
- Proxy assembly, address derivation and salts in `deploy`: a creation is an address, whether the initialiser returned, and whether there is code. The checks for address 0 at lines 506 and 538 cannot fire after `deploy` and do not show.
- Setters without logic, ownership transfer, pausing, events, gas and constructor checks: easy members only.
- `setBigBangEthMarketDebtRate`: one accrual and one write.
- Reentrancy: the contracts called do not call the owner's functions back, and swappers do not call `setSwapper`.
- The markets' own lending mathematics, Origins, USDO's messaging, YieldBox, twTap, Cluster, GMX and the 0x swapper: they appear only through the answers described above.
- YieldBox before a fee withdrawal: the shares a market passes on are on the market's account; the deposit a BigBang market makes first is not part of this model.
- Tokens that charge a fee on transfer, and balances beyond one word.
- Storage lists hold fewer than 2^256 elements; only the sum of their lengths wraps.
- A zero collateral amount, which stops the script before any loan is sized (`tasks/deploy/1-2-deployPostLbp.ts:225-229`).
- The other planners of `setupPostLbp1`, the multicall contract, and the prompts, files and encodings of the scripts; every deployed contract is found by its name.
- DebtIsASetSum: where several reasons to revert apply, the model names one; the contract reports the first it meets.
- Mint: the same holds for its reasons to revert, and so do FeeBatch and ExecuteBatch.
