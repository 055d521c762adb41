# Liquidity Nexus protocol: a verified model

A Dafny 4.11 model of the protocol's six Cairo contracts and of the backend services that
mirror and operate them, with proofs about whole runs. `dafny verify dfyconfig.toml` checks
everything.

## How it is built

**Contracts as a transition system.** Every contract function is a function from storage to
storage that can revert (`VaultProtocol`, `GovernanceProtocol`). Two machines run them: the
money side (VaultManager, YieldEngine, CDROracle, StrategyRegistry and the ERC-20 ledgers) and
the governance side (Governance, RewardDistributor). A call into a token contract is two steps,
before and after, and a stack remembers the calls that wait; in between any entry point may be
called by anybody, which is what a re-entering token can do. `base` is the storage of the last
finished transaction, and a revert anywhere goes back to it. Amounts are 256-bit with Cairo's
panics on overflow, `end_time` is 64-bit, and block time never goes back.

**Contracts as objects.** `VaultContracts` and `GovernanceContracts` hold the same contracts as
classes whose methods write their fields in the order the Cairo code does, loops included. Each
method is proved to end in the storage, or with the revert message, that the function of the
same name says. A function that calls a token is two methods, up to the call and from its return
on. `Protocol.Do` and `GovernanceProtocol.Do` take any step on the objects, with calls waiting in
any nesting and the whole transaction undone when a step reverts, and end in exactly the state the
machine's step ends in; `DoAll` does so for whole runs. So what holds on all runs of the machine
holds of the objects. `Execute` is the special case of one transaction whose token calls nobody back.

**The main results.**

- *Ledgers agree* (`VaultSafety.LedgersAgree`): the shares of a pool add up to its supply and to
  the oracle's TVL in every reachable state, inside token callbacks too.
- *Solvency* (`VaultSafety.VaultIsSolvent`): what the vault holds of a token is the supply of the
  token's pools, plus what is in flight, plus what was sent to it unasked; nothing else.
- *Withdrawal is always possible* (`VaultSafety.WithdrawalAlwaysPossible`), for one user in any
  state and for all of them in any order (`VaultSafety.EverybodyCanLeave`).
- *The database refines the chain* (`VaultMirror.MirrorRefinesChain`,
  `RewardMirror.MirrorFallsShortBy`): exactly how far a replay of the log can be off, and when it
  is not.
- *Verdicts are final* (`GovernanceSafety.VerdictIsFinal`, `ExecutionIsFinal`,
  `CancellationIsFinal`, `OneVotePerAddress`) over runs with rollbacks.
- *Refusals are exact*: for every entry point, which condition gives which revert message, in every
  reachable state and in the order in which the conditions are met (`VaultRefusals`, `GovernanceRefusals`).
- *A pool's last_update* is the time of its last accepted flow or setting, through all rollbacks
  (`PoolStamps.StampIsLastTouch`).
- *Rewards are conserved* (`RewardAccounts.RewardsAreConserved`) and Governance's part of them is
  fixed by the proposals and votes on record (`RewardAccounts.GovernanceGrantsAreFixed`).
- *Rebalancing* (`PoolWeights.RebalanceFillsIff`, `WeightsStayFull`, `DispatchRunsActivePools`).
- *The two circuit breakers stay together* on all interleavings if and only if the calls of each
  circuit agree on the two thresholds and every error they can meet counts
  (`CircuitBreakers.ServicesAgreeIff`). The live one's counters mean what its history says, whatever
  options its calls bring (`CircuitBreakers.HistoryExplainsCircuit`, `HalfOpenDecides`).
- *Leases exclude each other*, and the condition on late writes is exact
  (`LeaseLock.LeasesAreExclusive`, `WriteIsSafeIff`).
- *The transaction monitor finishes*, within a bound that is exact, and both endings are earned
  (`TransactionMonitor.MonitorTerminates`, `BoundIsExact`, `EndingIsEarned`); *the two retry loops are
  one policy* (`Retry.LoopsAgree`), and which errors they try again after is a list
  (`ErrorHandler.RetryableIff`); *rounding loses less than one unit per
  further pool* (`PoolYield`).

**Where the code does not do what is expected of it.** The model follows the code; each of these
has a lemma with the exact condition or a concrete instance.

- Withdrawing zero needs no share: anyone may do it on a registered pool, the contract logs it, and
  it is the one way into the database handler's missing-row branch
  (`VaultMirror.MissingRowMeansEmptyWithdrawal`, `EmptyWithdrawalIsLogged`). On an unregistered
  pool it reverts (`VaultSafety.WithdrawAcceptedIff`).
- A pool row that is created late misses the net of the earlier events for good
  (`VaultMirror.MirrorRefinesChain`). Neither the PoolAdded handler nor `addPool` ever creates one: the
  vault has no such event and takes new pools from the registry only, so every row comes from the seed
  script, and a pool's events meet a row only if its id is spelled like one of the script's three
  (`VaultMirror.RowsComeFromSeeds`). Ids in decimal never are (`VaultMirror.DecimalIdsMeetNoRow`).
- A rebalance that names fewer pools than are registered is accepted and can leave the pools above
  one hundred percent (`PoolWeights.RebalanceFillsIff`, and from deployment
  `PoolWeights.ShortRebalanceOverfills`); the HTTP controller's length check is what prevents it.
- A reward that arrives while the user's own claim waits for the token is flipped to claimed in the
  database although the chain still owes it (`RewardMirror.NestedRewardIsLost`, and from deployment
  `NestedGrantFromDeployment`, `NestedProposalFromDeployment`); `RewardMirror.MirrorFallsShortBy` says
  exactly by how much the database is off.
- The breakers part ways when calls on one circuit bring different failure or success thresholds, where
  anything below one counts as one, or when an error is left out by the call's failure types. Calls that
  differ in `resetTimeout` or `timeout` only do not part them
  (`CircuitBreakers.ServicesAgreeIff`, `DifferentOptionsDiverge`).
- A half-open circuit can close although a counted failure came after its probe: with different
  thresholds on one circuit, exactly if such a failure falls short of the threshold its own call brings
  (`CircuitBreakers.AlwaysPureIff`; `LenientFailureDoesNotTrip` is a run from the start).
- The code after a retry loop, commented as unreachable, is reached exactly if `maxRetries` is
  negative (`Retry.ExecuteCall`, `Retry.RetryDecorated`).
- A receipt without a block number keeps the monitor waiting forever
  (`TransactionMonitor.NoBlockNumberNeverFinishes`).
- A status update that does not go through the poll can change a final status. It keeps it exactly if
  FAILED meets no good receipt, and CONFIRMED meets a good and deep one or has retries left
  (`TransactionMonitor.DirectUpdateKeepsFinalIff`); `DirectUpdateRevives` and `DirectUpdateDemotes` give
  the ways it fails, for all limits. The fall from CONFIRMED to CONFIRMING takes a chain head that went
  back (`OnlyLowerHeadDemotes`).
- A release or extension whose write comes after its own lease ran out can break exclusion exactly if
  another client holds the key then (`LeaseLock.WriteIsSafeIff`); `LateDeleteBreaksExclusion` and
  `LateExtensionBreaksExclusion` are runs from the empty store.

**Assumptions of the money side.** `Wired`: every contract was deployed with the address of the
contract that calls it. `Legal`: the protocol's contracts make only the calls their code makes, and
nobody else can spend the vault's tokens. Tokens move the exact amount or revert.

## Model

| member | source | states |
|---|---|---|
| VaultSafety.LedgersAgree | contracts/vault_manager.cairo:33-92 | in every reachable state, also while a token has been called and may re-enter, the sum of a pool's balances equals its total_supply equals the oracle's tvl |
| VaultSafety.VaultIsSolvent | contracts/vault_manager.cairo:43-53 | in every reachable state the vault's balance of a token is the sum of the supplies of its pools plus payments in flight plus unsolicited payments, hence at least what it owes |
| VaultSafety.PoolTokenIsFixed | contracts/strategy_registry.cairo:58-72 | once a committed transaction gave a pool its token, no later run changes it: registry ids are fresh |
| VaultSafety.ShareIsCovered | contracts/vault_manager.cairo:69-80 | a balance never exceeds total_supply and tvl, and is positive only in a pool with a token |
| VaultSafety.WithdrawAcceptedIff | contracts/vault_manager.cairo:64-85 | everything in withdraw before the token call succeeds iff the caller is not zero, the amount is within the balance, and the amount is positive or the pool registered |
| VaultSafety.PayoutNeverReverts | contracts/vault_manager.cairo:87-88 | after the debit the token transfer cannot fail for want of custody or of room at the receiver |
| VaultSafety.WithdrawalAlwaysPossible | contracts/vault_manager.cairo:64-92 | in every good state every positive amount up to the own balance can be withdrawn: no step of the chained call reverts, exactly that amount leaves balance, supply, tvl and vault and reaches the user, and the pool is stamped with the block time |
| VaultSafety.ReachableSharesCanLeave | contracts/vault_manager.cairo:64-92 | the same on every run from deployment, as three steps of the machine, with every other balance, supply, tvl and wallet unchanged |
| VaultSafety.EverybodyCanLeave | contracts/vault_manager.cairo:64-92 | all holders can withdraw everything one after the other in any order, and all of them end with nothing owed |
| VaultSafety.CreditNeverReverts | contracts/vault_manager.cairo:48-61 | once the token has moved the funds, no addition of deposit, on_deposit or update_pool_metrics overflows |
| VaultSafety.DepositSucceedsIff | contracts/vault_manager.cairo:33-62 | with a token that does not re-enter a deposit goes through iff caller and amount are not zero, the pool is registered and the wallet covers it; then exactly the amount moves into balance, supply, tvl and custody and one event is logged |
| VaultSafety.DepositThenWithdraw | contracts/vault_manager.cairo:33-92 | a deposit followed by a withdrawal of the same amount succeeds and restores every balance, supply, tvl and wallet of everybody |
| VaultSafety.UninterruptedTouchesNobodyElse | contracts/vault_manager.cairo:48-53 | a deposit or withdrawal changes no other user's balance, no other pool and no third wallet |
| VaultSafety.OthersKeepYourShare | contracts/vault_manager.cairo:49-50 | no step changes a user's balance except that user's own withdrawal or the completion of that user's own deposit |
| VaultSafety.UninterruptedIsRun | contracts/vault_manager.cairo:87-91 | call, token transfer and return are atomic: either all three steps happen or the storage is the one before the transaction |
| VaultSafety.PoolAddedIff | contracts/strategy_registry.cairo:47-76 | add_pool succeeds iff governance calls it with two non-zero addresses; the next id, which had no token, gets the pool in the registry and the same token in the vault, and no other pool changes |
| VaultSafety.PoolUpdatedIff | contracts/strategy_registry.cairo:78-97 | update_pool succeeds iff governance calls it for a registered pool; token and strategy stay, no other pool changes |
| VaultSafety.CorrelationSetIff | contracts/cdr_oracle.cairo:84-94 | a correlation is set iff governance asks for at most 100000; it then reads the same in both orders and no other pair changes |
| VaultSafety.SettingsAreGovernances | contracts/cdr_oracle.cairo:39-94 | on every run a pool's volatility and yield rate and a pair's correlation change only by governance's own calls, whatever is deposited, withdrawn or tried by others |
| PoolStamps.StampIsLastTouch | contracts/cdr_oracle.cairo:39-82 | on every run, rollbacks included, a pool's last_update is the time of its last accepted deposit, withdrawal or setting, and never lies in the future |
| PoolStamps.EffectStamps | contracts/cdr_oracle.cairo:52-53 | exactly the end of a deposit, the debit of a withdrawal and governance's settings stamp a pool, with the block time |
| PoolStamps.FlowsStampNow | contracts/cdr_oracle.cairo:52-53 | a deposit or withdrawal that goes through stamps the pool with its own time |
| VaultRefusals.WithdrawalRefused | contracts/vault_manager.cairo:65-92 | in every good state a withdrawal reverts with INVALID_CALLER, INSUFFICIENT_BALANCE or INVALID_POOL, in this order and under exactly these conditions, and with no other message: neither the supply nor the tvl is ever too small |
| VaultRefusals.DepositRefused | contracts/vault_manager.cairo:34-41 | a deposit is refused before the token is called with INVALID_CALLER, INVALID_AMOUNT or INVALID_POOL, in this order, and otherwise not |
| VaultRefusals.PoolRefused | contracts/strategy_registry.cairo:48-70 | add_pool reverts for anybody but governance, then for a zero token or strategy, and never because of the vault it calls |
| VaultRefusals.PoolUpdateRefused | contracts/strategy_registry.cairo:79-97 | update_pool reverts for anybody but governance, then for an id that was never registered |
| VaultRefusals.RebalanceRefused | contracts/yield_engine.cairo:39-69 | a rebalance reverts for anybody but governance, then iff the sum of the weights leaves 256 bits, then iff it is not 100000, each with its own message |
| VaultRefusals.SettingRefused | contracts/cdr_oracle.cairo:59-94 | settings are refused to anybody but governance, and a correlation above 100000 to governance too |
| VaultRefusals.InnerCallRefused | contracts/vault_manager.cairo:105-112 | who may call the entry points the contracts keep for each other, and on which amounts they panic |
| VaultLedger.CreditBalances | contracts/vault_manager.cairo:48-58 | crediting a deposit keeps sum of balances, supply and tvl equal in every pool |
| VaultLedger.DebitBalances | contracts/yield_engine.cairo:113-122 | debiting a withdrawal keeps sum of balances, supply and tvl equal in every pool |
| VaultLedger.CreditKeeps | contracts/yield_engine.cairo:102-111 | finishing a deposit through engine and oracle keeps the whole invariant, with other calls still waiting |
| VaultLedger.DebitKeeps | contracts/vault_manager.cairo:76-85 | the part of withdraw before the token call keeps the whole invariant, so a re-entering token already sees consistent ledgers |
| VaultLedger.MoveKeeps | contracts/vault_manager.cairo:44-46 | the token's transfer keeps the invariant: custody and what is in flight change by the same amount |
| VaultLedger.AddPoolKeeps | contracts/strategy_registry.cairo:58-72 | registering a pool keeps the invariant, at any moment |
| VaultLedger.CorrelationStaysSymmetric | contracts/cdr_oracle.cairo:90-91 | the correlation matrix stays symmetric and at most one hundred percent, metrics untouched |
| VaultLedger.DirectCallsRevert | contracts/cdr_oracle.cairo:41-42 | add_pool of the vault, on_deposit, on_withdrawal, update_pool_metrics and execute_rebalance revert for every outside caller |
| VaultLedger.StepKeepsLedger | contracts/vault_manager.cairo:33-112 | every legal step, reverting or not, keeps the invariant of the running and of the committed storage |
| VaultLedger.RunKeepsLedger | contracts/vault_manager.cairo:33-112 | every legal run keeps it |
| Base.WordsAre256Bits | contracts/vault_manager.cairo:49-53 | additions panic iff the sum leaves 256 bits, subtractions iff the result is negative |
| VaultContracts.CDROracle.UpdatePoolMetrics | contracts/cdr_oracle.cairo:39-56 | the method ends in the storage, or with the message, of the specification function |
| VaultContracts.CDROracle.UpdateVolatility | contracts/cdr_oracle.cairo:58-69 | as above |
| VaultContracts.CDROracle.UpdateYieldRate | contracts/cdr_oracle.cairo:71-82 | as above |
| VaultContracts.CDROracle.UpdateCorrelation | contracts/cdr_oracle.cairo:84-94 | as above |
| VaultContracts.StrategyRegistry.AddPool | contracts/strategy_registry.cairo:47-76 | as above, across the call into the vault |
| VaultContracts.StrategyRegistry.UpdatePool | contracts/strategy_registry.cairo:78-97 | as above |
| VaultContracts.StrategyRegistry.ExecuteRebalance | contracts/strategy_registry.cairo:99-124 | the dispatch loop appends exactly the specified strategy calls |
| VaultContracts.YieldEngine.Rebalance | contracts/yield_engine.cairo:38-69 | the write-then-validate loop and the dispatch end as specified, an overflow in mid-loop included |
| VaultContracts.YieldEngine.OnDeposit | contracts/yield_engine.cairo:102-111 | as specified, across the call into the oracle |
| VaultContracts.YieldEngine.OnWithdrawal | contracts/yield_engine.cairo:113-122 | as specified, across the call into the oracle |
| VaultContracts.VaultManager.AddPool | contracts/vault_manager.cairo:104-112 | as specified |
| VaultContracts.VaultManager.Deposit | contracts/vault_manager.cairo:33-62 | the three nested calls and the writes between them end as specified, with the first failing assertion's message |
| VaultContracts.VaultManager.Withdraw | contracts/vault_manager.cairo:64-92 | the same for withdrawals |
| VaultContracts.VaultManager.FinishWithdrawal | contracts/vault_manager.cairo:90-91 | withdraw from the return of transfer on logs the event and nothing else |
| VaultContracts.VaultManager.OpenWithdrawal | contracts/vault_manager.cairo:64-85 | withdraw up to the call of transfer ends as specified |
| VaultContracts.VaultManager.FinishDeposit | contracts/vault_manager.cairo:48-61 | deposit from the return of transferFrom on, in whatever storage a re-entering token left, ends as specified |
| VaultContracts.VaultManager.OpenDeposit | contracts/vault_manager.cairo:33-46 | deposit up to the call of transferFrom: the token to call, or the first failing assertion |
| VaultContracts.Protocol.Execute | contracts/vault_manager.cairo:33-92 | a whole transaction on the contract objects, rollback included, leaves the storage that the machine's steps leave; it succeeds iff the call does, and a revert changes nothing |
| VaultContracts.Protocol.Do | contracts/vault_manager.cairo:33-92 | any step but the creation of tokens, taken on the contract objects with calls waiting in any nesting, ends in the state of the machine's step, reverts and their rollback included |
| VaultContracts.Protocol.DoAll | contracts/vault_manager.cairo:33-112 | the same for whole runs |
| VaultContracts.CalledIsRun | contracts/vault_manager.cairo:33-92 | every entry call with a non-re-entering token is a run of the machine |
| PoolWeights.CheckedTotalIsSum | contracts/yield_engine.cairo:43-58 | the running total is the sum of the weights and panics iff the sum leaves 256 bits |
| PoolWeights.RebalanceAcceptedIff | contracts/yield_engine.cairo:38-69 | a rebalance is accepted iff governance calls it with weights that sum to 100000, which it records as the total |
| PoolWeights.WrittenWeight | contracts/yield_engine.cairo:47-58 | weight i ends up at pool i and all other pools keep theirs |
| PoolWeights.RebalanceFillsIff | contracts/yield_engine.cairo:47-61 | the written prefix sums to 100000 = total_weights, and the first n pools carry 100000 iff none of them beyond the argument kept an old weight and no new weight went beyond them |
| PoolWeights.ShortRebalanceOverfills | contracts/yield_engine.cairo:47-61 | from deployment, for any two pools and any split: a rebalance that names the first pool only is accepted and leaves the registered pools above 100000 by all that the second one had |
| PoolWeights.StepKeepsFull | contracts/strategy_registry.cairo:58-67 | adding pools and full-length rebalances keep the registered pools' weights equal to total_weights |
| PoolWeights.WeightsStayFull | backend/src/modules/yield-engine/yield-engine.controller.ts:142-153 | if every rebalance of a run names each registered pool, the registered pools carry total_weights in every state, and 100000 for good once a committed rebalance set it, whatever pools are added later |
| PoolWeights.DispatchRunsActivePools | contracts/strategy_registry.cairo:104-123 | exactly the active pools' strategies run, once each, in index order, each with the weight of its own index |
| PoolWeights.RebalanceDispatches | contracts/strategy_registry.cairo:99-124 | the weight dispatched is 100000 less what inactive or unregistered indices were given; pools and count are untouched |
| PoolYield.RoundingLoss | contracts/cdr_oracle.cairo:106-110 | for one rate and any non-empty list of pools the sum of the yields is at most the yield of the combined tvl and short of it by at most n - 1 |
| PoolYield.LossIsAttained | contracts/cdr_oracle.cairo:106-110 | the loss of n - 1 does occur, for every n up to 100000 |
| PoolYield.YieldIsRoundedDown | contracts/cdr_oracle.cairo:106-110 | the yield is answered iff the product fits, and is the whole number y with y * 100000 <= rate * tvl < (y + 1) * 100000 |
| PoolYield.YieldIsMonotone | contracts/cdr_oracle.cairo:106-110 | yield grows with tvl and is at most tvl for rates up to one hundred percent |
| PoolYield.YieldAnswers | contracts/cdr_oracle.cairo:106-110 | a pool whose yield does not overflow answers for every smaller tvl, and with no more |
| GovernanceSafety.TalliesAreVotes | contracts/governance.cairo:106-137 | in every reachable state for_votes and against_votes are the sums of the recorded votes of their side, ids are dense and proposals[id].id == id |
| GovernanceSafety.CountedVoteTallies | contracts/governance.cairo:130-137 | counting one new vote keeps all tallies exact |
| GovernanceSafety.StepKeepsGood | contracts/governance.cairo:69-177 | every step keeps ids dense, tallies exact, execution and cancellation exclusive, and executed proposals above quorum and majority |
| GovernanceSafety.VoteAcceptedIff | contracts/governance.cairo:106-145 | the exact condition under which a vote counts, the reward's authorisation and overflow included |
| GovernanceSafety.VoteIsCounted | contracts/governance.cairo:123-142 | an accepted vote is the first of its address on record, moves the sum and the tally of its own side only, touches no other proposal or vote, and pays 10000 to the voter |
| GovernanceSafety.VoteMovesSum | contracts/governance.cairo:127-137 | it adds its weight to the sum of the recorded votes of its side, and to no other side or proposal |
| GovernanceSafety.ProposalAcceptedIff | contracts/governance.cairo:69-104 | the exact condition under which a proposal is accepted, and what it leaves: an id that no proposal and no vote has had, the voting period from now, no other proposal changed, 100000 to the proposer |
| GovernanceSafety.ExecuteAcceptedIff | contracts/governance.cairo:147-162 | execution succeeds iff time is up, quorum and strict majority hold and neither flag is set; then only the executed flag changes |
| GovernanceSafety.CancelAcceptedIff | contracts/governance.cairo:164-177 | cancellation succeeds iff the proposer asks in time and neither flag is set; then only the canceled flag changes |
| GovernanceRefusals.VoteRefused | contracts/governance.cairo:107-145 | a vote reverts for a finished proposal, an unknown one or one outside its time, no voting power, a vote on record, an overflowing tally or a refused reward, in this order, each with its own message |
| GovernanceRefusals.ProposalRefused | contracts/governance.cairo:70-104 | a proposal reverts without balance, when its end leaves 64 bits, when the count overflows, or with the refusal of its reward |
| GovernanceRefusals.ExecutionRefused | contracts/governance.cairo:148-162 | execution reverts for the first of: executed or canceled, not over, overflowing total, quorum missed, no majority |
| GovernanceRefusals.CancellationRefused | contracts/governance.cairo:165-177 | cancellation reverts for the first of: not the proposer, executed or canceled, over |
| GovernanceRefusals.GrantRefused | contracts/reward_distributor.cairo:35-75 | a distribution reverts iff the caller is not authorised or a sum leaves 256 bits, a change of authorisation iff the caller is not the administrator, a claim iff nothing is pending |
| GovernanceSafety.RunContinues | contracts/governance.cairo:69-177 | over every run, rollbacks included, committed proposals keep their terms, tallies only grow, flags stay set, votes are never lost or changed, and closed proposals change in nothing but execution |
| GovernanceSafety.VerdictIsFinal | contracts/governance.cairo:147-177 | once block time is past end_time, tallies and cancellation never change again, and whether execute_proposal succeeds depends only on them and on whether it has succeeded before |
| GovernanceSafety.OneVotePerAddress | contracts/governance.cairo:123-128 | after a committed vote every later vote of that address on that proposal reverts and the recorded one stays |
| GovernanceSafety.ExecutionIsFinal | contracts/governance.cairo:147-177 | an executed proposal stays executed and uncanceled with quorum and majority, and further execution, cancellation or votes revert |
| GovernanceSafety.CancellationIsFinal | contracts/governance.cairo:164-177 | a canceled proposal stays canceled and is never executed or voted on |
| GovernanceContracts.RewardDistributor.AuthorizeDistributor | contracts/reward_distributor.cairo:34-39 | the method ends as specified |
| GovernanceContracts.RewardDistributor.RevokeDistributor | contracts/reward_distributor.cairo:41-46 | the method ends as specified |
| GovernanceContracts.RewardDistributor.DistributeReward | contracts/reward_distributor.cairo:48-60 | the method ends as specified |
| GovernanceContracts.RewardDistributor.ClaimRewards | contracts/reward_distributor.cairo:62-75 | the method ends as specified, whether the token pays or fails |
| GovernanceContracts.RewardDistributor.OpenClaim | contracts/reward_distributor.cairo:62-68 | claim_rewards up to the call of the token ends as specified |
| GovernanceContracts.RewardDistributor.FinishClaim | contracts/reward_distributor.cairo:70-74 | claim_rewards from the return of the token on, in whatever storage a re-entering token left, ends as specified |
| GovernanceContracts.Governance.Propose | contracts/governance.cairo:69-104 | as specified, across the call into the distributor |
| GovernanceContracts.Governance.CastVote | contracts/governance.cairo:106-145 | as specified, across the call into the distributor |
| GovernanceContracts.Governance.ExecuteProposal | contracts/governance.cairo:147-162 | as specified |
| GovernanceContracts.Governance.CancelProposal | contracts/governance.cairo:164-177 | as specified |
| GovernanceContracts.GovernanceProtocol.Execute | contracts/governance.cairo:69-177 | a whole transaction on the contract objects, rollback included, leaves the storage that the machine's steps leave; it succeeds iff the call does, and a revert changes nothing |
| GovernanceContracts.GovernanceProtocol.Do | contracts/governance.cairo:69-177 | any step, taken on the contract objects with claims waiting in any nesting, ends in the state of the machine's step, reverts and their rollback included |
| GovernanceContracts.GovernanceProtocol.DoAll | contracts/governance.cairo:69-177 | the same for whole runs |
| GovernanceContracts.CalledIsRun | contracts/reward_distributor.cairo:62-75 | every entry call is a run of the machine |
| GovernanceProtocol.RewardingIsDistribution | contracts/governance.cairo:97-100 | proposing, voting and distributing each do to the rewards exactly what one distribute_reward does |
| RewardAccounts.RewardsAreConserved | contracts/reward_distributor.cairo:48-75 | in every reachable state total_distributed is the sum of pending rewards, plus claims in progress, plus everything claimed |
| RewardAccounts.GovernanceGrantsAreFixed | contracts/governance.cairo:139-142 | what Governance distributed is 100000 per proposal plus 10000 per recorded vote, in all and for every single user, across any interleaving |
| RewardAccounts.DistributionAcceptedIff | contracts/reward_distributor.cairo:48-60 | a distribution succeeds iff the caller is authorised and the numbers fit; that user's pending reward, the sum of all and the total rise by the amount, nobody else's does |
| RewardAccounts.OnlyAuthorizedGive | contracts/reward_distributor.cairo:34-51 | on no run does an address that the administrator never authorised distribute anything; Governance itself accepts neither proposals nor votes before it is authorised |
| RewardAccounts.ClaimPaysEverything | contracts/reward_distributor.cairo:62-75 | a claim is accepted iff something is pending, and a paid claim moves the caller's whole reward and nobody else's from pending to claimed |
| VaultMirror.MirrorRefinesChain | backend/src/modules/vault-manager/vault-manager.service.ts:47-124 | replaying the committed log of any run, with rows keyed by any one-to-one spelling of ids, gives every on-chain balance, and every pool's total_supply less the net of what came before its row; the total is right iff that net is zero |
| VaultMirror.RowInTimeMissesNothing | backend/src/modules/vault-manager/vault-manager.service.ts:127-149 | a row created before the pool's first event misses nothing |
| VaultMirror.MirrorLagsInsideTransaction | contracts/vault_manager.cairo:76-91 | inside a transaction the log lags behind the balances by exactly the withdrawals whose token has not returned |
| VaultMirror.RowsHoldNetBalances | backend/src/modules/vault-manager/vault-manager.service.ts:51-71 | a balance row exists iff the user deposited, and holds the net of the user's events |
| VaultMirror.PoolRowHoldsNetSupply | backend/src/modules/vault-manager/vault-manager.service.ts:73-82 | a pool row exists iff it was asked for, and its total is the net of the events since then |
| VaultMirror.RowKeepsFirstToken | backend/src/modules/vault-manager/vault-manager.service.ts:135-141 | a pool row keeps the token it was first wanted with |
| VaultMirror.RowsComeFromSeeds | backend/src/database/seeds/seed.ts:32-64 | on every legal run a pool's events meet a row iff the seed script ran for an id spelled the same, which is one of its three; that addPool makes none is proved from the vault's guard, that the PoolAdded handler makes none holds because the vault declares no such event |
| VaultMirror.SeedScriptMakesThree | backend/src/database/seeds/seed.ts:33-65 | the seed script asks for exactly the rows 0x01, 0x02 and 0x03, and each is there afterwards |
| VaultMirror.DecimalIdsMeetNoRow | backend/src/modules/vault-manager/vault-manager.service.ts:73-82 | with ids spelled in decimal no pool of the chain ever has a row, so no total is ever kept |
| VaultMirror.DecimalReadsBack | backend/src/modules/vault-manager/vault-manager.service.ts:52-57 | the decimal spelling of an id can be read back, so different pools never share a row |
| VaultMirror.AddPoolIsNeverAccepted | backend/src/modules/vault-manager/vault-manager.service.ts:222-250 | the vault accepts no add_pool transaction from an account on any run, so addPool throws before it creates a row |
| VaultMirror.RunKeepsLog | contracts/vault_manager.cairo:60-61 | on every run the log accounts for every balance and every supply, and each logged withdrawal is covered by the log before it |
| VaultMirror.MissingRowMeansEmptyWithdrawal | backend/src/modules/vault-manager/vault-manager.service.ts:103-107 | the withdrawal handler finds no row iff the user never deposited, and then the amount is zero |
| VaultMirror.EmptyWithdrawalIsLogged | contracts/vault_manager.cairo:69-91 | that branch is reachable: anyone can withdraw zero from a registered pool and the event is emitted |
| VaultMirror.VaultManagerService.OnDeposit | backend/src/modules/vault-manager/vault-manager.service.ts:47-88 | the handler's rows end as the replay's step says |
| VaultMirror.VaultManagerService.OnWithdrawal | backend/src/modules/vault-manager/vault-manager.service.ts:91-124 | the handler's rows end as the replay's step says |
| VaultMirror.VaultManagerService.OnPoolAdded | backend/src/modules/vault-manager/vault-manager.service.ts:127-149 | the row is created once and never reset |
| VaultMirror.VaultManagerService.AddPool | backend/src/modules/vault-manager/vault-manager.service.ts:222-265 | a row is created, once, only if the transaction sent first was accepted |
| RewardMirror.StatsAddUp | backend/src/modules/reward-distributor/reward-distributor.service.ts:546-593 | on every run, re-entrant or not, the claimed and the unclaimed rows add up to total_distributed |
| RewardMirror.StatsShowRewards | backend/src/modules/reward-distributor/reward-distributor.service.ts:553-569 | on every quiet run the unclaimed rows add up to all that is pending on the chain and the claimed rows to all that was ever claimed there |
| RewardMirror.MirrorFallsShortBy | backend/src/modules/reward-distributor/reward-distributor.service.ts:509-512 | on every run a user's totalUnclaimed falls short of the on-chain reward by exactly what the user had outstanding when the last committed claim returned, so they are equal iff that was zero |
| RewardMirror.MirrorShowsRewards | backend/src/modules/reward-distributor/reward-distributor.service.ts:84-124 | if nobody is rewarded while a claim of theirs waits for the token, totalUnclaimed is the on-chain reward |
| RewardMirror.ClaimKeepsSyncIff | backend/src/modules/reward-distributor/reward-distributor.service.ts:107-124 | the end of a claim keeps rows and chain in step iff the user was not rewarded meanwhile and has no other claim open |
| RewardMirror.NestedRewardIsLost | contracts/reward_distributor.cairo:68-74 | in any state between transactions, whatever rewards the user inside the own claim is shown as claimed while the chain still owes it |
| RewardMirror.NestedGrantFromDeployment | contracts/reward_distributor.cairo:48-75 | such a run from deployment: an administrator other than Governance rewards a claiming user again |
| RewardMirror.NestedProposalFromDeployment | contracts/governance.cairo:97-100 | such a run from deployment with Governance as administrator: a user proposes inside the own claim |
| RewardMirror.MarkingSums | backend/src/modules/reward-distributor/reward-distributor.service.ts:111-114 | flipping a user's rows moves exactly that user's unclaimed sum from the unclaimed to the claimed total and touches nobody else's |
| RewardMirror.RewardDistributorService.OnRewardDistributed | backend/src/modules/reward-distributor/reward-distributor.service.ts:84-104 | the handler's rows end as the replay's step says |
| RewardMirror.RewardDistributorService.OnRewardClaimed | backend/src/modules/reward-distributor/reward-distributor.service.ts:107-124 | as above, and nothing of the user is left unclaimed |
| CircuitBreakers.ServicesAreBisimilar | backend/src/common/services/circuit-breaker.service.fixed.ts:75-209 | if the calls of each circuit agree on the effective thresholds and every failure counts for its call, for every interleaving of starts, results, timeouts and resets both services admit the same calls and agree on state, failures and lastFailure |
| CircuitBreakers.ServicesAgreeIff | backend/src/common/services/circuit-breaker.service.fixed.ts:162-199 | for any assignment of options and errors to circuits: all interleavings by a clock that never goes back keep the services bisimilar, or just all states equal, if and only if each circuit has one pair of effective thresholds and no possible error fails to count |
| CircuitBreakers.TransitionsAlike | backend/src/common/services/circuit-breaker.service.ts:107-141 | outside CLOSED the live counter has reached the threshold, and therefore the two transition codes agree |
| CircuitBreakers.LiveStaysConfigured | backend/src/common/services/circuit-breaker.service.ts:71-145 | that hidden invariant holds in every reachable state |
| CircuitBreakers.ClosedIffBelowThreshold | backend/src/common/services/circuit-breaker.service.ts:136-140 | with one pair of effective thresholds per circuit, a reachable circuit is CLOSED iff failures is below the failure threshold, and in HALF_OPEN successes is below the success threshold |
| CircuitBreakers.DifferentOptionsDiverge | backend/src/common/services/circuit-breaker.service.ts:111-141 | for any two options with different effective thresholds, and for any option that leaves a possible error out, some run over just these options, by a clock that never goes back, puts the circuit into different states |
| CircuitBreakers.HistoryExplainsCircuit | backend/src/common/services/circuit-breaker.service.ts:87-141 | in every reachable state, whatever options the calls bring: lastFailure is the latest counted failure, failures in CLOSED is the number of counted failures since the last success, close or reset, and successes in HALF_OPEN is the number of successes since the probe |
| CircuitBreakers.AdmittedIff | backend/src/common/services/circuit-breaker.service.ts:87-101 | whatever options other calls brought: an OPEN circuit admits a call iff the resetTimeout the call brings has passed since the latest counted failure; the others admit every call |
| CircuitBreakers.HalfOpenDecides | backend/src/common/services/circuit-breaker.service.ts:108-140 | on every run, a success closes a half-open circuit iff with it the successes since the probe reach the call's own threshold, and clears both counters then; a failure opens it iff it counts and completes the call's own failure threshold |
| CircuitBreakers.ResetCloses | backend/src/common/services/circuit-breaker.service.ts:185-194 | in both services a reset closes an existing circuit from any state with both counters zero and lastFailure kept, the next call is admitted at any time and with any options, and no other circuit or call changes |
| CircuitBreakers.SettlingDecides | backend/src/common/services/circuit-breaker.service.ts:107-144 | on every run, whatever options: a late success does nothing to an OPEN circuit, a success clears a CLOSED one, a counted failure opens a CLOSED one iff it completes its own call's threshold and is on record in every state, an uncounted error changes nothing |
| CircuitBreakers.FixedSettlingDecides | backend/src/common/services/circuit-breaker.service.fixed.ts:153-208 | the decision of a settling call in the corrected service, by the stored options: a half-open circuit closes with its last missing success and reopens with any failure, a closed one opens with the failure that completes its threshold, an open one stays open, and every failure is on record |
| CircuitBreakers.FixedCountsProbesOnly | backend/src/common/services/circuit-breaker.service.fixed.ts:153-208 | on every run of the corrected service only half-open circuits count successes |
| CircuitBreakers.StartDecides | backend/src/common/services/circuit-breaker.service.fixed.ts:79-105 | in both services a start makes a missing circuit closed with zero counters, an admitted call is under way, a probe leaves an OPEN circuit HALF_OPEN with no successes, and a refused call changes nothing |
| CircuitBreakers.SettlingTouchesOneCircuit | backend/src/common/services/circuit-breaker.service.fixed.ts:107-119 | a settling call is over and changes no other circuit or call, in both services |
| CircuitBreakers.AlwaysPureIff | backend/src/common/services/circuit-breaker.service.ts:123-141 | HALF_OPEN circuits have always seen only successes since their probe iff every counted failure on one reached the failureThreshold of its own call |
| CircuitBreakers.UniformHalfOpen | backend/src/common/services/circuit-breaker.service.ts:108-140 | with one pair of effective thresholds per circuit, a HALF_OPEN circuit has seen only successes since its probe and fewer than successThreshold, so the completing success closes it and the first counted failure opens it |
| CircuitBreakers.LenientFailureDoesNotTrip | backend/src/common/services/circuit-breaker.service.ts:108-140 | a run from the start with failure thresholds 1 and 9 on one circuit, in which it closes with a counted failure between its probe and the closing success |
| CircuitBreakers.LiveCircuitBreaker.Enter | backend/src/common/services/circuit-breaker.service.ts:71-101 | the method does what the gate function says |
| CircuitBreakers.LiveCircuitBreaker.OnResolved | backend/src/common/services/circuit-breaker.service.ts:107-122 | the method is the live success transition |
| CircuitBreakers.LiveCircuitBreaker.OnRejected | backend/src/common/services/circuit-breaker.service.ts:123-144 | the method is the live failure transition |
| CircuitBreakers.LiveCircuitBreaker.ResetCircuit | backend/src/common/services/circuit-breaker.service.ts:185-194 | an existing circuit is closed with zero counters, lastFailure kept; a missing one is not made |
| CircuitBreakers.FixedCircuitBreaker.Enter | backend/src/common/services/circuit-breaker.service.fixed.ts:75-105 | the method does what the gate function says |
| CircuitBreakers.FixedCircuitBreaker.HandleSuccess | backend/src/common/services/circuit-breaker.service.fixed.ts:152-177 | the method is the rewrite's success transition |
| CircuitBreakers.FixedCircuitBreaker.HandleFailure | backend/src/common/services/circuit-breaker.service.fixed.ts:185-209 | the method is the rewrite's failure transition |
| CircuitBreakers.FixedCircuitBreaker.ResetCircuit | backend/src/common/services/circuit-breaker.service.fixed.ts:275-289 | an existing circuit is closed with zero counters, lastFailure kept; a missing one is not made |
| TransactionMonitor.MonitorTerminates | backend/src/common/services/transaction-monitor.service.ts:124-215 | with growing blocks and one positive receipt block every new transaction is CONFIRMED or FAILED after maxRetries + maxConfirmations polls that could write its row, for any mix of missing receipts, errors before or after the status was assigned, and polls that could not write |
| TransactionMonitor.BoundIsExact | backend/src/common/services/transaction-monitor.service.ts:124-215 | for all limits one such poll less does not suffice |
| TransactionMonitor.FinishedStaysFinished | backend/src/common/services/transaction-monitor.service.ts:126-131 | no poll changes a CONFIRMED or FAILED transaction |
| TransactionMonitor.StatusIsJustified | backend/src/common/services/transaction-monitor.service.ts:177-195 | CONFIRMED implies enough confirmations, CONFIRMING too few, and an unfinished transaction has retries left |
| TransactionMonitor.PollDecides | backend/src/common/services/transaction-monitor.service.ts:150-215 | what one poll makes of an unfinished transaction: a receipt without success always fails it, one with success confirms it iff currentBlock - blockNumber + 1 reaches maxConfirmations, missing receipts and exceptions use up retries and fail it beyond maxRetries |
| TransactionMonitor.EndingIsEarned | backend/src/common/services/transaction-monitor.service.ts:150-215 | over any polls, a CONFIRMED transaction met a successful receipt of the depth asked for, and a FAILED one an unsuccessful receipt or more missing receipts and exceptions than retries |
| TransactionMonitor.RevertedFails | backend/src/common/services/transaction-monitor.service.ts:189-195 | a new transaction that meets a receipt without success before it is finished ends FAILED, whatever follows |
| TransactionMonitor.NoBlockNumberNeverFinishes | backend/src/common/services/transaction-monitor.service.ts:174-188 | receipts without a block number leave a transaction unfinished for ever iff maxConfirmations is positive |
| TransactionMonitor.DirectUpdateKeepsFinalIff | backend/src/common/services/transaction.service.ts:161-167 | for every finished transaction and every outcome: a direct status update keeps the status iff FAILED meets no good receipt, or CONFIRMED meets a good and deep one or has retries left; the poll always keeps it |
| TransactionMonitor.DirectUpdateRevives | backend/src/common/services/transaction.service.ts:161-167 | for all limits: a transaction given up after its retries is CONFIRMED by a direct update when its receipt turns up |
| TransactionMonitor.DirectUpdateDemotes | backend/src/common/services/transaction-monitor.service.ts:155-195 | for all limits: a direct update takes a CONFIRMED transaction to FAILED on a missing receipt with no retries left, and back to CONFIRMING on a receipt one block too shallow, which takes a chain head below one already seen |
| TransactionMonitor.OnlyLowerHeadDemotes | backend/src/common/services/transaction.service.ts:161-167 | whatever polls confirmed a new transaction, its receipt seen from a chain head at least as high keeps it CONFIRMED under a direct update |
| TransactionMonitor.StatsPartition | backend/src/common/services/transaction-monitor.service.ts:241-263 | each count is of its own status, and the four add up to the total |
| TransactionMonitor.TransactionMonitorService.TrackTransaction | backend/src/common/services/transaction-monitor.service.ts:84-122 | a known hash is returned untouched, a new one starts PENDING |
| TransactionMonitor.TransactionMonitorService.UpdateTransactionStatus | backend/src/common/services/transaction-monitor.service.ts:150-215 | one transaction is updated as specified, also when a listener or the save throws after the status was assigned, and no other is touched; a row that cannot be written stays |
| TransactionMonitor.TransactionMonitorService.CheckPendingTransactions | backend/src/common/services/transaction-monitor.service.ts:124-148 | one poll updates every unfinished transaction exactly once and no finished one, up to the first row that cannot be written, which ends it |
| TransactionMonitor.TransactionMonitorService.GetTransactionStats | backend/src/common/services/transaction-monitor.service.ts:241-263 | each of the four counts is the number of rows with exactly that status, and they add up to the total |
| ErrorHandler.FlagAgreesWithType | backend/src/common/services/error-handler.service.ts:304-330 | for every error the handler returns, the retryable flag equals what isRetryable would decide by type |
| ErrorHandler.KindIsTabled | backend/src/common/services/error-handler.service.ts:96-221 | an error's kind is the tabled one of its code, or that of the first phrase, in the source's order, that its message contains, or unknown; the reason is kept for a replaced transaction only |
| ErrorHandler.RetryableIff | backend/src/common/services/error-handler.service.ts:99-220 | an error is retried iff its code is REPLACEMENT_UNDERPRICED, NONCE_EXPIRED, NETWORK_ERROR, SERVER_ERROR, CONNECTION_ERROR or TIMEOUT, or TRANSACTION_REPLACED with reason cancelled, or a code without a case whose first fitting phrase is a retryable one |
| ErrorHandler.IncludesIff | backend/src/common/services/error-handler.service.ts:184-213 | a message contains a phrase iff it is some text, the phrase and some text |
| ErrorHandler.HandleBlockchainError | backend/src/common/services/error-handler.service.ts:74-227 | the field-by-field handler gives every error its tabled kind and the retry verdict of the list above, always sets the flag, and dropping the flag changes no verdict |
| Retry.ExecuteCall | backend/src/common/services/transaction.service.ts:231-269 | attempts stop at the first success, the first error that is not worth a retry or the limit: an error worth it with attempts left is always followed by another attempt, any other never; result and waits are those of the last attempt; at most maxRetries + 1 attempts; the code after the loop is reached iff maxRetries is negative |
| Retry.ExecuteTransaction | backend/src/common/services/transaction.service.ts:69-214 | a failed simulation ends before any attempt, otherwise the same as executeCall |
| Retry.RetryDecorated | backend/src/common/decorators/retry.decorator.ts:67-120 | the same for the decorator, with its own counting, excluded errors, shouldRetry test and capped waits |
| Retry.LoopsAgree | backend/src/common/decorators/retry.decorator.ts:67-120 | for every sequence of outcomes executeCall and an exponential Retry that retries what is retryable make the same attempts with the same result, and wait the same iff no wait exceeds maxDelay |
| Retry.TotalBackoff | backend/src/common/services/transaction.service.ts:257-259 | after n failed attempts the total wait is retryDelay times 2^n - 1 |
| Retry.WaitsDouble | backend/src/common/services/transaction.service.ts:257-259 | the i-th wait of the service is retryDelay times 2^i |
| Retry.TotalCapped | backend/src/common/decorators/retry.decorator.ts:98-105 | n capped waits take at most n times maxDelay and at most the uncapped total; without backoff exactly n times retryDelay |
| Retry.TotalCappedExactly | backend/src/common/decorators/retry.decorator.ts:98-105 | the exact total of capped waits: doubling waits as long as they fit the cap, and exactly the cap from then on |
| LeaseLock.LeasesAreExclusive | backend/src/common/services/lock.service.ts:45-144 | for any number of clients and any interleaving of their store commands with time, at most one holds an unexpired lease on a key, if each write of release and extend comes within its own lease or meets no other holder |
| LeaseLock.AtMostOneHolder | backend/src/common/services/lock.service.ts:45-144 | the same from the empty store, for any two holders |
| LeaseLock.WriteIsSafeIff | backend/src/common/services/lock.service.ts:92-132 | after a step from a backed state every harmless continuation ends with at most one holder per key iff the step is harmless: a late write that meets another holder can always be continued to two holders |
| LeaseLock.ExtensionIsSafeIff | backend/src/common/services/lock.service.ts:126-132 | an extension leaves at most one holder per key iff it is in time or nobody else holds the key; otherwise there are two at once |
| LeaseLock.StepKeepsBackedIff | backend/src/common/services/lock.service.ts:92-132 | every unexpired lease stays the one the store knows iff the step is harmless |
| LeaseLock.LateDeleteBreaksExclusion | backend/src/common/services/lock.service.ts:92-98 | from the empty store, for every lease time: a late delete of another client's entry lets a third one in, and two hold the key |
| LeaseLock.LateExtensionBreaksExclusion | backend/src/common/services/lock.service.ts:126-132 | from the empty store, for every lease time: a late extension gives its client a lease beside the current holder's |
| LeaseLock.LockService.Acquire | backend/src/common/services/lock.service.ts:54-76 | with other clients and time acting on the store between the attempts, the lock is won iff some attempt within the limit is answered and sets while all earlier ones were answered and found the key taken; the store then holds the entry with its expiry; an exception ends the loop, before or after the store acted |
| LeaseLock.LockService.Release | backend/src/common/services/lock.service.ts:85-110 | undisturbed, the entry is deleted iff it is the caller's, and the answer is true iff the key is free afterwards |
| LeaseLock.LockService.Extend | backend/src/common/services/lock.service.ts:119-144 | undisturbed, the answer is true iff the entry is live and the caller's, and then exactly its expiry is renewed |
| LeaseLock.AttemptIsStep | backend/src/common/services/lock.service.ts:54-76 | an attempt is the set-if-absent step of the interleaved machine, and its client holds the key iff it set and the reply arrived |
| LeaseLock.EntryLasts | backend/src/common/services/lock.service.ts:56 | an entry with a positive time to live is there for exactly that long, and one without stays |
| LeaseLock.ServiceIsSteps | backend/src/common/services/lock.service.ts:85-144 | an undisturbed release or extension of a held lock is its read step followed by its write step |
| LeaseLock.OwnerDecides | backend/src/common/services/lock.service.ts:85-144 | undisturbed, a release answers true iff no other client holds a live entry and removes nothing but the own one, an extension iff the caller holds the key, and no other key changes |

## Left out

- ERC-20 tokens: a ledger that moves the exact amount or reverts (EIP-20, section "Methods", `transfer` and `transferFrom`); tokens that return false, take fees or rebase are not modelled, and the contracts ignore the return value. Allowances are left to the token.
- Strategy contracts: `execute` only appends to a trace; a strategy does not call back.
- VaultContracts.VaultManager.Deposit: as one method, with a token that calls nobody back; with a token that does, it is `OpenDeposit` and `FinishDeposit` under `Protocol.Do`.
- VaultContracts.VaultManager.Withdraw: as one method, with a token that calls nobody back; with a token that does, it is `OpenWithdrawal` and `FinishWithdrawal` under `Protocol.Do`.
- GovernanceContracts.RewardDistributor.ClaimRewards: as one method, with a token that calls nobody back; with a token that does, it is `OpenClaim` and `FinishClaim` under `GovernanceProtocol.Do`.
- VaultContracts.Protocol.Do: not the creation of new tokens, which no contract of the protocol does; it is a step of the transition system only.
- Contract addresses held in storage: a callee is passed to a method as an object, and only the callers' addresses are checked, as the contracts do.
- `harvest_yield` of the engine: only the registry may call it and never does, and `distribute_yield`, which it would call, is not defined by the vault.
- Deposit limits: `deposit` never consults `is_valid_deposit`, so the code decides no capacity bound.
- The wrap-around of the felt252 `pool_count`: pool ids are unbounded.
- `balance_of` of the voting token: its answer is a parameter of the call.
- The distributor's own token balance: whether the token pays a claim is a parameter.
- Contract events other than Deposit, Withdrawal, RewardDistributed and RewardClaimed, and the views.
- The mirrors' database: handlers run one at a time and saves succeed; the column width of the stored decimals, and the handlers' swallowed exceptions, are not modelled. How an event's pool id is spelled is a parameter, one-to-one; the repository does not fix it.
- The rows of authorised distributors, reward timestamps and reasons, and the count of distinct users.
- Persistence and loading of the rewritten circuit breaker, and its per-call options beyond the five that decide a transition.
- Retry.ExecuteTransaction: gas estimation, sending and waiting for the receipt are one opaque outcome per attempt, because they only decide what the attempt returns or throws.
- The error handler's messages, transaction hashes, HTTP mapping and user-friendly texts; `code` values without a case of their own are one value.
- Overlapping polls of the transaction monitor: one poll is taken to end before the next begins, though its interval timer does not wait for it.
- LeaseLock: `setNX` is called but not defined in the Redis service; it is taken as one atomic set-if-absent with expiry. `withLock` is the composition of acquire and release; exceptions and lost replies of the store are modelled for `acquire` only.
- The rate limiter: its key embeds the current second and its units differ, so the sliding window it documents is not what its code decides.
- The backend's own proposal service and the gas optimizer: sums of vote rows and a bounded history, easier than the on-chain counterparts proved here.
- The database handlers of the strategy registry and the yield engine: they append rows or store placeholders and do not mirror chain state.
- Frontend, controllers (but for the length check of the rebalance request), authentication, logging, health checks, migrations, deployment, and floating-point helpers such as APY.
