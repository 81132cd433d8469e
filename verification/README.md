# A verified model of the EOSIO system contract

This project models the economic core of the EOSIO system contract in Dafny and proves what its actions keep: the REX
lending pool, staking pools and their votes, the powerup market, bandwidth staking, the RAM market, proxies in
stake-weighted voting, and the election of producers.

Every subsystem has the same three parts.

* A specification: the tables as values (`Rex.State`, `StakingPools.State`, ...) and each action as a function that
  yields the new tables, or `None` where a check of the contract fails and the whole action is rolled back.
* Properties of the specification: an invariant that every action keeps, and what follows from it over every run.
* A class whose fields are the contract's tables and whose methods change them step by step in the contract's own order,
  with its loops, iterators and early exits (modules named `...Contract`). Each method is proved against the
  specification: it succeeds exactly when the function yields a value, and then leaves exactly that value. A method that
  returns false stands for a failed check; the chain undoes what it did.

`SystemLedger` runs bandwidth staking, REX, powerup and RAM together over the one `user_resources` table, and
`SystemGuarantees` and `SystemSchedules` state what users can rely on over such runs. `PoolSystem` runs staking pools and pool votes
together over the one `pool_voter` table, and `VoteRecords` adds the recorded votes that the election reads.

| files | subject |
|---|---|
| Tables, Totals, Tokens, Resources, Bancor, Transitions | totals over tables, token transfers, resource rows, bancor arithmetic, the transition to pools |
| RexReturns, RexBalances, Rex, RexInvariants, RexActions, RexPrice, RexGuarantees, RexContract | the REX pool |
| RexMaturities, RexTrades, RexLoans, RexOwners, RexCalls | what REX actions do, exactly, and what they leave alone |
| RamMarket, RamTrades, RamContract | the RAM market |
| Bandwidth, Refunds, BandwidthContract | staking for bandwidth, refunds |
| Powerup, PowerupInvariants, PowerupOrders, PowerupContract | the powerup market |
| SystemLedger, SystemGuarantees, SystemSchedules | the four subsystems that share resources |
| StakingPools, StakingInvariants, StakingTrades, StakingGuarantees, StakingContract | staking pools |
| Ballots, ProxyGraph, PoolVotes, PoolVotesInvariants, PoolVotesContract, VoteRules, VoteWeight, PoolSystem | pool votes |
| VoteRecords, VoteRecordsContract | recorded votes of producers |
| FeeChannel | fees shared out between pools and REX |
| Voting, VotingWeights, VotingContract | proxies in stake-weighted voting |
| Election, ElectionContract | the producer schedule |

Conventions. An action is one atomic step at a fixed block time; time never goes back between actions. Names are their
64-bit codes. Amounts are unbounded integers. Integer division is written out where the contract truncates a negative
number. Shares of staking pools, votes and their ratios are exact reals, floored wherever the contract converts to an
integer. `rank` in the modules on votes is not part of any table: it is the evidence that recursion along proxies ends.

## Where the code and its documentation disagree

* The growth of RAM is described as `bytes_per_block` for every block. The code multiplies in 32 bits, so a long enough
  gap between trades adds less. `RamMarket.SupplyGrowth` gives the exact condition, `RamMarket.SupplyGrowthCanWrap` an
  input.
* `update_utilization` states that utilization is at most adjusted utilization afterwards. Two sales in the same second
  break that; `PowerupInvariants.UtilizationPost` gives the exact condition, `PowerupInvariants.SameSecondSale` a run.
* The scans of the producer indices rely on every inactive row sorting behind every eligible one, which fails for
  inactive rows with negative votes; `Election.ScanNeedsClean` gives the exact condition and `Election.InactiveCanBlock`
  an input. Recorded pool votes are never negative in exact arithmetic (`VoteRecords.RecordsAreClean`); with doubles,
  rounding can make them so.
* The documentation says that each of n approved producers gets 1/n of a vote; the code adds the full weight to each, and
  so does the model.

## Model

| member | source | states |
|---|---|---|
| RexReturns.ReleasedBucketByBucket | contracts/eosio.system/src/rex.cpp:623-720 | what an update releases from its aggregates is, bucket by bucket, the rate times the intervals each bucket was live, plus what the bucket just opened owes |
| RexReturns.PaidInFull | contracts/eosio.system/src/rex.cpp:623-720 | thirty days after the newest bucket opens every fee has been released in full and no bucket is left |
| RexReturns.ProceedsNonNegative | contracts/eosio.system/src/rex.cpp:707-712 | `proceeds` and `current_rate_of_increase` are never negative, so the clamp on a negative balance is dead |
| RexReturns.ReleasedNonNegative | contracts/eosio.system/src/rex.cpp:714-719 | an update never takes tokens back from the REX pool |
| RexReturns.PendingIsFresh | contracts/eosio.system/src/rex.cpp:665-669 | the pending bucket's time is never in the map, so opening it never overwrites a bucket |
| RexReturns.UnpaidShift | contracts/eosio.system/src/rex.cpp:640-661 | advancing the clock lowers what all buckets still owe by the total rate times the elapsed intervals |
| RexReturns.DistributeValid | contracts/eosio.system/src/rex.cpp:623-720 | after an update rate, proceeds and cached oldest bucket again agree with the buckets |
| RexReturns.CollectValid | contracts/eosio.system/src/rex.cpp:1071-1100 | adding a fee keeps rate, proceeds and cached oldest bucket in agreement with the buckets |
| RexReturns.FirstFeeValid | contracts/eosio.system/src/rex.cpp:1078-1090 | the return pool made by the first fee agrees with its (empty) buckets |
| RexReturns.TimeFacts | contracts/eosio.system/src/rex.cpp:1078-1081 | distributions happen on ten-minute boundaries; a bucket opens at the first multiple of 43200 seconds ahead, at most 43200 seconds away |
| RexReturns.FeeJoinsNextBucket | contracts/eosio.system/src/rex.cpp:1071-1100 | a collected fee joins the pending bucket, which opens at the first noon or midnight ahead; only the first bucket ever accepts fees for ten minutes more |
| RexReturns.BucketsAreHalfDays | contracts/eosio.system/src/rex.cpp:1078-1097 | all bucket times are multiples of 43200 seconds and less than thirty days old, so at most sixty are live |
| SystemSchedules.FeeOpensNext | contracts/eosio.system/src/rex.cpp:921-933 | a fee that reaches the return pool in any reachable state opens at the next noon or midnight |
| SystemSchedules.FeesWaitForHalfDays | contracts/eosio.system/src/rex.cpp:1071-1100 | in every reachable state the pending bucket and all live buckets lie on multiples of 43200 seconds, at most sixty of them live |
| RexContract.OldestIsCached | contracts/eosio.system/src/rex.cpp:672-696 | when the cached oldest bucket time says nothing has expired, nothing has: the skipped loop would have erased no bucket |
| RexContract.ExpireBuckets | contracts/eosio.system/src/rex.cpp:672-705 | the loop leaves exactly the live buckets and reports the rate and the excess credit of those it erased |
| RexContract.OpenPendingBucket | contracts/eosio.system/src/rex.cpp:640-670 | opening the pending bucket credits exactly what the aggregates owe for the elapsed intervals |
| RexContract.DistributeNow | contracts/eosio.system/src/rex.cpp:640-712 | the in-place computation on aggregates equals the per-bucket schedule |
| RexInvariants.LazyEqualsEager | contracts/eosio.system/src/rex.cpp:623-720 | an update at t1 followed by one at t2 leaves the same tables, return pool, buckets and REX pool, as a single one at t2, however many intervals were skipped |
| SystemGuarantees.LazyEqualsEager | contracts/eosio.system/src/rex.cpp:623-720 | the same in every reachable state of the whole contract |
| RexBalances.AtMostSix | contracts/eosio.system/src/rex.cpp:1111-1188 | an owner has at most five daily buckets and savings, strictly sorted by time |
| RexBalances.BuyValid | contracts/eosio.system/src/rex.cpp:1111-1145 | buying REX keeps matured + buckets = rex_balance, order and savings last |
| RexBalances.ProcessValid | contracts/eosio.system/src/rex.cpp:971-980 | maturing buckets loses no REX and never reaches the savings bucket |
| RexBalances.MoveToSavingsSucceeds | contracts/eosio.system/src/rex.cpp:262-294 | once the up-front check passes neither labelled error can fire: exactly the amount moves into savings and the open sell order stays covered |
| RexBalances.MoveFromSavingsValid | contracts/eosio.system/src/rex.cpp:296-317 | exactly the amount leaves savings, total REX unchanged |
| RexBalances.ConsolidateValid | contracts/eosio.system/src/rex.cpp:988-1004 | consolidation leaves exactly the REX of the open sell order matured and savings untouched |
| RexBalances.FiveDays | contracts/eosio.system/src/rex.cpp:957-964 | buckets that are not due lie on the next five midnights |
| RexBalances.MaturityMonotone | contracts/eosio.system/src/rex.cpp:957-964 | maturity times are midnights, less than six days ahead, and never move backwards |
| RexMaturities.MaturityExact | contracts/eosio.system/src/rex.cpp:957-964 | the maturity time is the one midnight more than four and at most five days ahead |
| RexMaturities.ProcessMaturesDue | contracts/eosio.system/src/rex.cpp:971-980 | after processing, the matured REX is exactly what was due, whatever buckets it was in |
| RexMaturities.BoughtMatures | contracts/eosio.system/src/rex.cpp:1111-1145 | buying adds the REX to the owner's maturity schedule at the fifth midnight to come and changes nothing else of it |
| RexMaturities.FromSavingsMatures | contracts/eosio.system/src/rex.cpp:296-317 | REX taken from savings matures like REX bought now |
| RexMaturities.ConsolidatedMatures | contracts/eosio.system/src/rex.cpp:988-1004 | consolidating delays everything outside savings and the open sell order to the fifth midnight to come |
| RexMaturities.ToSavingsTakesLast | contracts/eosio.system/src/rex.cpp:262-294 | savings are taken from what matures last: the schedule is capped at what stays outside savings |
| SystemSchedules.RexMaturesNoEarlier | contracts/eosio.system/src/rex.cpp:957-980 | until the fifth midnight after any reachable state, whatever anyone does, an owner can sell no more than the balance's schedule allowed by then |
| RexInvariants.ProcessExpiredLoanKeeps | contracts/eosio.system/src/rex.cpp:519-589 | an expired loan is always closed or renewed, nothing is lost, and no check on the receiver's resources can block it |
| RexInvariants.LedgerFollowsLoan | contracts/eosio.system/src/rex.cpp:364-412 | changing a loan's stake with its receiver's resources never fails and keeps the resource ledger |
| RexInvariants.FillQueuedKeeps | contracts/eosio.system/src/rex.cpp:591-616 | a queued order always finds its owner's balance, never divides by an empty pool, and is filled or left alone without losing tokens |
| RexInvariants.SoldValid | contracts/eosio.system/src/rex.cpp:772-806 | a sale that is allowed never drives unlent tokens negative; the last REX can be sold only when nothing is lent |
| RexInvariants.GrantedValid | contracts/eosio.system/src/rex.cpp:454-468 | a loan never lends more than is unlent and keeps lendable = lent + unlent |
| RexInvariants.RunRexKeeps | contracts/eosio.system/src/rex.cpp:511-618 | maintenance never aborts once the pool exists and keeps every invariant and the surplus of eosio.rex |
| RexInvariants.AddToReturnPoolMoves | contracts/eosio.system/src/rex.cpp:1071-1100 | each fee enters `proceeds` and each update moves exactly the drop in `proceeds` into the REX pool |
| RexInvariants.CollectNamebidsKeeps | contracts/eosio.system/src/rex.cpp:940-949 | name-bid proceeds enter the return pool together with their tokens |
| RexTrades.BoughtExactly | contracts/eosio.system/src/rex.cpp:1013-1064 | the first REX, or the first after the pool ran empty, costs a token per 10000 units and resets rent; later a purchase yields the most REX that keeps the price |
| RexTrades.FillsExactly | contracts/eosio.system/src/rex.cpp:772-806 | a sale worth q tokens is filled if and only if total_lent < 10 (total_unlent - q + 1), pays q, and takes the REX from pool and balance; otherwise nothing changes |
| RexTrades.QueuedFillsExactly | contracts/eosio.system/src/rex.cpp:591-616 | a queued order is closed with its proceeds if and only if it can be filled |
| RexTrades.OldestFirst | contracts/eosio.system/src/rex.cpp:591-616 | maintenance fills the oldest order if the pool can afford it, before any other is tried |
| RexTrades.SellsExactly | contracts/eosio.system/src/rex.cpp:97-145 | a sale the pool can afford is paid into the fund; any other is queued, on top of an open order that keeps its place; exact conditions of refusal |
| RexTrades.SellsOnlyMatured | contracts/eosio.system/src/rex.cpp:97-118 | what is not matured cannot be sold |
| RexTrades.AccountExactly | contracts/eosio.system/src/rex.cpp:890-918 | collecting moves what waits, and any further proceeds, into the owner's fund and erases the closed order |
| RexTrades.CancelExactly | contracts/eosio.system/src/rex.cpp:147-154 | an order can be cancelled if and only if it is open; its REX is free again and nothing else changes |
| RexTrades.CancelUndoes | contracts/eosio.system/src/rex.cpp:147-154 | cancelling a freshly queued order restores the state before it |
| RexLoans.GrantsExactly | contracts/eosio.system/src/rex.cpp:723-754 | when a loan is granted, for how many tokens, and the new row, pool, return pool, fund and resources it leaves |
| RexLoans.ProcessesExactly | contracts/eosio.system/src/rex.cpp:519-589 | an expired loan gives tokens and rent back at the pool's price, then is renewed at the new price for thirty days if and only if balance, price and queue allow, or closed with its balance refunded |
| RexLoans.FundsExactly | contracts/eosio.system/src/rex.cpp:809-820 | only the borrower can fund a loan, before it expires, out of the fund |
| RexLoans.DefundsExactly | contracts/eosio.system/src/rex.cpp:822-835 | only the borrower can take tokens back, before it expires, and no more than there are |
| RexLoans.DefundUndoes | contracts/eosio.system/src/rex.cpp:809-835 | taking back what was funded restores the state |
| RexLoans.AtMostMaxLoans | contracts/eosio.system/src/rex.cpp:511-589 | maintenance closes or renews at most `max` loans of a kind |
| RexLoans.AtMostMaxOrders | contracts/eosio.system/src/rex.cpp:591-616 | maintenance fills at most `max` orders |
| RexLoans.NamebidsGo | contracts/eosio.system/src/rex.cpp:940-949 | waiting name-bid proceeds are collected once, with their tokens if there is REX |
| RexCalls.MaintenanceReleases | contracts/eosio.system/src/rex.cpp:511-518 | maintenance releases every fee that is due to the REX pool |
| RexCalls.BuyRexExactly | contracts/eosio.system/src/rex.cpp:40-55 | when buyrex succeeds; it pays the price before maintenance, and an owner without open order and loans gets exactly the REX bought |
| RexCalls.BuyWithStakeExactly | contracts/eosio.system/src/rex.cpp:57-95 | the same for the REX half of unstaketorex, which takes nothing from the fund |
| RexCalls.SellRexExactly | contracts/eosio.system/src/rex.cpp:97-145 | when sellrex succeeds, fills or queues, at the price that maintenance leaves |
| RexCalls.RentExactly | contracts/eosio.system/src/rex.cpp:723-754 | when rentcpu and rentnet succeed, and the loan they make, at the price that maintenance leaves |
| RexCalls.ToSavingsExactly | contracts/eosio.system/src/rex.cpp:262-294 | mvtosavings succeeds if and only if the amount is positive and neither saved nor promised, and moves just that |
| RexCalls.FromSavingsExactly | contracts/eosio.system/src/rex.cpp:296-317 | mvfrsavings succeeds if and only if savings cover a positive amount, and moves just that |
| RexCalls.UpdatesExactly | contracts/eosio.system/src/rex.cpp:206-230 | updaterex and consolidate need only a balance; updaterex collects what waits and matures exactly what is due |
| RexCalls.ClosesRexExactly | contracts/eosio.system/src/rex.cpp:319-354 | closerex succeeds if and only if no REX is left, collects what waits, and erases the fund only if it is empty and no loan is open |
| SystemSchedules.UnstakeToRexNeedsOnlyStake | contracts/eosio.system/src/rex.cpp:57-95 | in every reachable state unstaketorex succeeds if and only if the vote requirement and the delegation allow it |
| RexOwners.OthersLeaveIdleOwners | contracts/eosio.system/src/rex.cpp:11-354 | an action of someone else leaves the fund, REX and order of an owner without open order and loans exactly as they are |
| RexOwners.NothingMaturesEarly | contracts/eosio.system/src/rex.cpp:957-1004 | no action lets REX mature earlier than the schedule said, nor what is acquired now before the fifth midnight |
| SystemSchedules.IdleOwnersAreLeftAlone | contracts/eosio.system/src/rex.cpp:11-354 | the same over any run of the whole contract in which nobody acts for the owner |
| RexActions.BoughtValid | contracts/eosio.system/src/rex.cpp:1013-1064 | both checks in the purchase are dead on a reachable pool; an empty pool restarts without forgetting any loan and drops exactly the fees released while it was empty |
| RexActions.StepKeeps | contracts/eosio.system/src/rex.cpp:11-354 | every action keeps the invariant, and changes the surplus of eosio.rex by exactly the gift or the forgotten fees |
| RexActions.BuyWithStakeKeeps | contracts/eosio.system/src/rex.cpp:57-95 | moving stake into REX keeps the pool, the ledger and the surplus |
| RexActions.LowerClaims | contracts/eosio.system/src/rex.cpp:66-80 | taking the stake out of the receiver's resources never aborts |
| RexActions.EnqueueKeeps | contracts/eosio.system/src/rex.cpp:119-140 | a queued order is covered by matured REX and no loan outlives it by more than thirty days |
| RexPrice.PriceNeverFalls | contracts/eosio.system/src/rex.cpp:475-489 | while REX is outstanding no action lowers total_lendable / total_rex |
| RexPrice.BuyWithStakePrice | contracts/eosio.system/src/rex.cpp:57-95 | nor does buying REX with staked tokens |
| RexPrice.PurchaseKeepsPrice | contracts/eosio.system/src/rex.cpp:1047-1060 | a purchase rounds in favour of the holders |
| RexPrice.SaleKeepsPrice | contracts/eosio.system/src/rex.cpp:772-806 | a sale rounds in favour of those who stay |
| RexPrice.RoundTripNeverGains | contracts/eosio.system/src/rex.cpp:1013-1064 | selling at once what a purchase yielded never returns more than was paid |
| SystemGuarantees.Solvency | contracts/eosio.system/src/rex.cpp:11-145 | after any run of the whole contract eosio.rex holds all funds, loan balances, uncollected proceeds, lendable tokens and return-pool proceeds, plus exactly what it was given and what empty-pool restarts dropped |
| SystemGuarantees.WithdrawalsArePaid | contracts/eosio.system/src/rex.cpp:25-38 | in every reachable state of the whole contract a withdrawal succeeds if and only if the fund and uncollected proceeds cover it |
| SystemGuarantees.RunPrice | contracts/eosio.system/src/rex.cpp:714-719 | from any reachable state on, whatever actions of any subsystem follow, unstaketorex included, the price of REX never falls while REX is outstanding |
| SystemGuarantees.NothingLentWhileQueued | contracts/eosio.system/src/rex.cpp:433-445 | no action of any subsystem before and after which an order waits creates a loan, renews one, or raises total_lent |
| SystemGuarantees.LentNeverRises | contracts/eosio.system/src/rex.cpp:433-445 | from any reachable state on, over any run during which some order always waits, total_lent never rises and every remaining loan was there before |
| SystemGuarantees.ThirtyDayGuarantee | contracts/eosio.system/src/rex.cpp:511-618 | in every reachable state of the whole contract, thirty days after an order was queued, maintenance whose `max` covers loans and orders closes every loan, brings total_lent to 0 and fills every open order |
| SystemGuarantees.OwnersRexIsConserved | contracts/eosio.system/src/rex.cpp:97-145 | in every reachable state of the whole contract an owner's REX is matured REX plus at most six sorted buckets; an open order has a balance row whose matured REX covers it |
| SystemGuarantees.StepGains | contracts/eosio.system/src/rex.cpp:57-95 | every action changes the surplus of eosio.rex by exactly the gift or the forgotten fees, unstaketorex included |
| RexGuarantees.BuyWithStakeLendsNothing | contracts/eosio.system/src/rex.cpp:57-95 | unstaketorex, while an order waits, lends nothing |
| RexContract.RexContract.UpdateRexPool | contracts/eosio.system/src/rex.cpp:623-720 | the stored return pool and REX pool move exactly as the per-bucket schedule says |
| RexContract.RexContract.AddToRexReturnPool | contracts/eosio.system/src/rex.cpp:1071-1100 | the fee joins the pending bucket after everything due has been released |
| RexContract.RexContract.ChannelToRex | contracts/eosio.system/src/rex.cpp:921-933 | a fee enters the return pool with its tokens, or stays away while no REX exists |
| RexContract.RexContract.UpdateRexAccount | contracts/eosio.system/src/rex.cpp:890-912 | filled proceeds move into the fund, a closed order is erased, and the open order's REX is returned |
| RexContract.RexContract.UpdateResourceLimits | contracts/eosio.system/src/rex.cpp:364-412 | the receiver's row is adjusted, created or erased, and the call fails exactly when a total would turn negative |
| RexContract.RexContract.AddToRexBalance | contracts/eosio.system/src/rex.cpp:1111-1145 | bought REX matures four midnights later, behind other buckets and before savings |
| RexContract.RexContract.ConsolidateRexBalance | contracts/eosio.system/src/rex.cpp:988-1004 | all buckets merge into one, savings and open order excepted |
| RexContract.RexContract.MoveIntoSavings | contracts/eosio.system/src/rex.cpp:262-294 | the backward loop over the buckets takes exactly what was asked for, or everything there is |
| RexContract.RexContract.RexLoansAvailable | contracts/eosio.system/src/rex.cpp:433-445 | looking at the head of the bytime index is enough to know whether any order waits |
| RexContract.RexContract.RenewLoan | contracts/eosio.system/src/rex.cpp:519-589 | a renewed loan pays its fee again, for the rent the pool now gives |
| RexContract.RexContract.ProcessExpiredLoan | contracts/eosio.system/src/rex.cpp:519-589 | the loan step meets its specification and cannot fail |
| RexContract.RexContract.ProcessLoans | contracts/eosio.system/src/rex.cpp:560-589 | the loop processes the first `max` expired loans in order of expiration |
| RexContract.RexContract.FillRexOrder | contracts/eosio.system/src/rex.cpp:772-806 | an order is filled at the pool price exactly if a tenth of what is lent stays unlent |
| RexContract.RexContract.ProcessOrders | contracts/eosio.system/src/rex.cpp:591-616 | iterating over the index while orders close visits each open order once, in order of time |
| RexContract.RexContract.RunRex | contracts/eosio.system/src/rex.cpp:511-618 | maintenance succeeds if and only if the pool exists, and loses nothing |
| RexContract.RexContract.AddToRexPool | contracts/eosio.system/src/rex.cpp:1013-1064 | REX received for a payment, with the initial and the restart branch |
| RexContract.RexContract.BuyRex | contracts/eosio.system/src/rex.cpp:40-55 | succeeds exactly as specified, and keeps invariant and surplus |
| RexContract.RexContract.SellRex | contracts/eosio.system/src/rex.cpp:97-145 | sells, or queues on top of an open order; the order stays covered |
| RexContract.RexContract.CancelOrder | contracts/eosio.system/src/rex.cpp:147-154 | only an open order can be cancelled; no token moves |
| RexContract.RexContract.Deposit | contracts/eosio.system/src/rex.cpp:11-23 | the fund grows with the tokens of eosio.rex |
| RexContract.RexContract.Withdraw | contracts/eosio.system/src/rex.cpp:25-38 | the fund shrinks with the tokens of eosio.rex |
| RexContract.RexContract.Rent | contracts/eosio.system/src/rex.cpp:723-754 | a loan is granted only while no order waits and for more than it costs |
| RexContract.RexContract.FundLoan | contracts/eosio.system/src/rex.cpp:809-819 | moves a payment from the fund into an unexpired loan |
| RexContract.RexContract.DefundLoan | contracts/eosio.system/src/rex.cpp:822-833 | moves part of an unexpired loan's balance back into the fund |
| RexContract.RexContract.UpdateRex | contracts/eosio.system/src/rex.cpp:206-230 | matures buckets and collects proceeds |
| RexContract.RexContract.Consolidate | contracts/eosio.system/src/rex.cpp:251-260 | the action meets its specification and keeps the invariant |
| RexContract.RexContract.MoveToSavings | contracts/eosio.system/src/rex.cpp:262-294 | the action meets its specification and keeps the invariant |
| RexContract.RexContract.MoveFromSavings | contracts/eosio.system/src/rex.cpp:296-317 | the action meets its specification and keeps the invariant |
| RexContract.RexContract.CloseRex | contracts/eosio.system/src/rex.cpp:319-354 | funds, then the balance, are erased only if nothing is left in them |
| RexContract.RexContract.BuyWithStake | contracts/eosio.system/src/rex.cpp:57-95 | succeeds exactly as specified once the delegation has been lowered |
| RexContract.HeadTells | contracts/eosio.system/include/eosio.system/eosio.system.hpp:505 | since closed orders sort last, the head of the index is closed or missing exactly when no order waits |
| RexContract.RemainingAfter | contracts/eosio.system/src/rex.cpp:591-616 | stepping the iterator before closing an order neither skips nor repeats an order |
| Bancor.OutputBounds | contracts/eosio.system/src/exchange_state.cpp:80-94 | the bancor output never exhausts the reserve and is exact up to one unit |
| Bancor.ProductNeverFalls | contracts/eosio.system/src/exchange_state.cpp:59-94 | no trade lowers the product of the connector balances |
| Bancor.OutputExactly | contracts/eosio.system/src/exchange_state.cpp:80-94 | the bancor output is the most that does not lower the product |
| Bancor.InputBounds | contracts/eosio.system/src/exchange_state.cpp:96-109 | the bancor quote is the price that keeps the product, rounded down |
| Bancor.QuoteIsTight | contracts/eosio.system/src/exchange_state.cpp:96-109 | paying the quoted input never yields more than asked for; one unit more yields at least that |
| RamMarket.MarketIsSolvent | contracts/eosio.system/src/delegate_bandwidth.cpp:43-159 | over every run, with trades and supply growth in any order: base + reserved = max_ram_size, quote x base >= q0 x max_ram_size, total_ram_stake = quote - q0 >= 0, and eosio.ram holds it |
| RamMarket.StepKeeps | contracts/eosio.system/src/delegate_bandwidth.cpp:43-159 | every trade and supply change keeps the market invariant |
| RamMarket.SellIsNeverBlocked | contracts/eosio.system/src/delegate_bandwidth.cpp:116-159 | a sale succeeds if and only if the seller has the bytes and gets more than one unit: the check marked as impossible never fires |
| RamMarket.RoundTripNeverGains | contracts/eosio.system/src/exchange_state.cpp:59-78 | buying bytes and selling them back never gains tokens |
| RamMarket.BuyBytesNeverMore | contracts/eosio.system/src/delegate_bandwidth.cpp:25-33 | asking for bytes never delivers more than asked if the supply is up to date |
| RamMarket.SupplyGrowth | contracts/eosio.system/src/eosio.system.cpp:87-103 | the documented growth of `bytes_per_block` for each block holds if and only if blocks x rate stays below 2^32, and the supply never shrinks |
| RamTrades.BuysExactly | contracts/eosio.system/src/delegate_bandwidth.cpp:43-101 | a purchase succeeds if and only if tokens after the half-percent fee and bytes are positive; it moves exactly the most bytes that keep the product |
| RamTrades.SellsExactly | contracts/eosio.system/src/delegate_bandwidth.cpp:111-157 | a sale of bytes one has succeeds if and only if it yields more than one unit, and moves exactly the most tokens that keep the product |
| RamTrades.PriceCoversCost | contracts/eosio.system/src/delegate_bandwidth.cpp:25-35 | what buyrambytes pays covers the quoted cost after the fee, one unit short at most and never more |
| RamTrades.UpdatesCompose | contracts/eosio.system/src/eosio.system.cpp:87-98 | while the product does not wrap, updating the supply in between makes no difference |
| RamTrades.RateCountsFromNow | contracts/eosio.system/src/eosio.system.cpp:105-110 | a new rate counts from now on, the blocks before at the old one |
| RamTrades.SetsRamExactly | contracts/eosio.system/src/eosio.system.cpp:67-85 | the size can only be raised, stays below the limit, and the difference is for sale |
| RamMarket.SupplyGrowthCanWrap | contracts/eosio.system/src/eosio.system.cpp:94 | an input for which the documented growth fails: the 32-bit product wraps |
| RamMarket.InitialInv | contracts/eosio.system/src/eosio.system.cpp:380-398 | initialisation establishes the market invariant with q0 the quote balance |
| RamContract.RamContract.UpdateRamSupply | contracts/eosio.system/src/eosio.system.cpp:87-103 | supply and base grow together |
| RamContract.RamContract.SetRam | contracts/eosio.system/src/eosio.system.cpp:67-85 | the three bounds on the new size; size and base grow together |
| RamContract.RamContract.SetRamRate | contracts/eosio.system/src/eosio.system.cpp:105-110 | the supply is brought up to date at the old rate first |
| RamContract.RamContract.BuyRam | contracts/eosio.system/src/delegate_bandwidth.cpp:43-107 | fee rounded up, bytes bought and recorded; eosio.ram gains exactly what the stake counter gains |
| RamContract.RamContract.BuyRamBytes | contracts/eosio.system/src/delegate_bandwidth.cpp:25-33 | the quote is taken before the supply is updated |
| RamContract.RamContract.SellRam | contracts/eosio.system/src/delegate_bandwidth.cpp:116-159 | bytes sold and paid for; eosio.ram loses exactly what the stake counter loses |
| RamContract.ExchangeState.ConvertFromBase | contracts/eosio.system/src/exchange_state.cpp:59-78 | RAM in, tokens out, and the product of balances does not fall |
| RamContract.ExchangeState.ConvertFromQuote | contracts/eosio.system/src/exchange_state.cpp:59-78 | tokens in, RAM out, and the product of balances does not fall |
| Bandwidth.StakeIsConserved | contracts/eosio.system/src/delegate_bandwidth.cpp:169-345 | over every run eosio.stake holds exactly all delegated bandwidth plus all pending refunds, for stakers other than itself |
| Bandwidth.StepConserves | contracts/eosio.system/src/delegate_bandwidth.cpp:169-345 | what one action moves in or out of eosio.stake is exactly what it adds to or takes from delegations and refunds |
| Bandwidth.ChangeBwMoves | contracts/eosio.system/src/delegate_bandwidth.cpp:169-345 | every account's liquid tokens + delegated stake + refund stay the same, but for stake given away with `transfer` |
| Bandwidth.RefundMoves | contracts/eosio.system/src/delegate_bandwidth.cpp:255-341 | netting: the refund and the tokens still to be paid add up to what is staked or unstaked, partly or fully netted |
| Bandwidth.ResourcesFollow | contracts/eosio.system/src/delegate_bandwidth.cpp:208-253 | the receiver's totals can always follow a delegation, so the check on them never blocks |
| Bandwidth.SelfStakeUsesRefund | contracts/eosio.system/src/delegate_bandwidth.cpp:255-341 | staking for oneself succeeds if and only if the liquid tokens cover what the pending refund does not |
| Bandwidth.UndelegationNeedsOnlyStake | contracts/eosio.system/src/delegate_bandwidth.cpp:385-397 | undelegating succeeds if and only if the delegation covers a positive amount |
| Bandwidth.RefundIsPaid | contracts/eosio.system/src/delegate_bandwidth.cpp:400-411 | a refund is paid if and only if it exists and three days have passed |
| Bandwidth.ClaimRefundMoves | contracts/eosio.system/src/delegate_bandwidth.cpp:400-411 | claiming a refund moves exactly the refund to its owner |
| Bandwidth.StakeToRexMoves | contracts/eosio.system/src/rex.cpp:57-88 | moving stake to REX takes exactly that stake out of eosio.stake |
| Tokens.TransferConserves | contracts/eosio.system/src/delegate_bandwidth.cpp:336-340 | transfers neither create nor destroy tokens, and fail instead of overdrawing |
| Resources.AdjustMeaning | contracts/eosio.system/src/rex.cpp:364-412 | adjusting a resource row changes that account by exactly the deltas, and fails exactly if a total would be negative |
| Refunds.DelegationAt | contracts/eosio.system/src/delegate_bandwidth.cpp:183-206 | only the delegation of the pair changes, by exactly the deltas |
| Refunds.RefundCovers | contracts/eosio.system/src/delegate_bandwidth.cpp:255-316 | of each resource the refund covers what it can and keeps its time; only the rest has to be paid |
| Refunds.UndelegationRestartsDelay | contracts/eosio.system/src/delegate_bandwidth.cpp:274-281 | unstaking adds to the owner's refund per resource and restarts the delay for all of it; no token moves |
| Refunds.StakingForOthers | contracts/eosio.system/src/delegate_bandwidth.cpp:169-345 | staking for another account is paid in full with liquid tokens, touches no refund, and adds to one delegation |
| Refunds.SelfStakeKeepsTime | contracts/eosio.system/src/delegate_bandwidth.cpp:255-316 | staking for oneself draws on the refund first, and what stays pending keeps its time |
| Refunds.OnlyUnstakingSetsTime | contracts/eosio.system/src/delegate_bandwidth.cpp:255-341 | no action but the owner's own unstaking sets the time of a refund |
| Refunds.StakeToRexExactly | contracts/eosio.system/src/rex.cpp:57-88 | stake goes to eosio.rex exactly as far as it was delegated, without touching refunds |
| SystemSchedules.RefundWaitsThreeDays | contracts/eosio.system/src/delegate_bandwidth.cpp:400-411 | however the chain goes on after unstaking, the owner's next refund is paid 259200 seconds later or after |
| SystemSchedules.RefundComesDue | contracts/eosio.system/src/delegate_bandwidth.cpp:400-411 | without further unstaking by the owner, what is still pending is paid exactly from three days on |
| BandwidthContract.BandwidthContract.UpdateDelegation | contracts/eosio.system/src/delegate_bandwidth.cpp:183-206 | the delegation row is created, changed or erased; it fails exactly if it would turn negative |
| BandwidthContract.BandwidthContract.UpdateTotals | contracts/eosio.system/src/delegate_bandwidth.cpp:208-253 | the totals row is created, changed or erased; it fails exactly if it would turn negative |
| BandwidthContract.BandwidthContract.UpdateRefund | contracts/eosio.system/src/delegate_bandwidth.cpp:255-341 | the branches of refund netting, create, merge and erase, meet one specification; unstaking sets the request time to now, staking leaves it |
| BandwidthContract.BandwidthContract.ChangeBw | contracts/eosio.system/src/delegate_bandwidth.cpp:169-345 | the action meets its specification and keeps the invariant |
| BandwidthContract.BandwidthContract.DelegateBw | contracts/eosio.system/src/delegate_bandwidth.cpp:372-383 | the action meets its specification and keeps the invariant |
| BandwidthContract.BandwidthContract.UndelegateBw | contracts/eosio.system/src/delegate_bandwidth.cpp:385-397 | the action meets its specification and keeps the invariant |
| BandwidthContract.BandwidthContract.Refund | contracts/eosio.system/src/delegate_bandwidth.cpp:400-411 | the action meets its specification and keeps the invariant |
| BandwidthContract.BandwidthContract.StakeToRex | contracts/eosio.system/src/rex.cpp:57-88 | the staking half of unstaketorex meets its specification |
| PowerupInvariants.MarketIsConsistent | contracts/eosio.system/src/powerup.cpp:70-117 | in every reachable state utilization = sum of queued weights, 0 <= utilization <= weight, adjusted_utilization <= weight, and eosio.reserv holds exactly weight - utilization besides its own claims |
| PowerupInvariants.StepKeeps | contracts/eosio.system/src/powerup.cpp:119-396 | every action keeps this, and only a configuration can lower a weight |
| PowerupInvariants.PowerUpKeeps | contracts/eosio.system/src/powerup.cpp:334-396 | a sale succeeds if and only if its arguments, its fee and the room left in both markets allow it: no check on account totals can block it |
| PowerupInvariants.PowerupExecKeeps | contracts/eosio.system/src/powerup.cpp:317-332 | processing the queue fails only while nothing is configured |
| PowerupInvariants.ExpireKeeps | contracts/eosio.system/src/powerup.cpp:70-89 | expiring orders is never blocked and returns exactly what they held |
| PowerupInvariants.AllExpire | contracts/eosio.system/src/powerup.cpp:70-89 | a run that covers the queue erases exactly the due orders |
| PowerupInvariants.UpdateWeightGrows | contracts/eosio.system/src/powerup.cpp:91-102 | between configurations the weight never shrinks, despite truncated interpolation and division |
| PowerupInvariants.RatioShrinks | contracts/eosio.system/src/powerup.cpp:91-102 | the interpolated ratio falls from the initial to the target ratio and never back |
| PowerupInvariants.UtilizationPost | contracts/eosio.system/src/powerup.cpp:104-117 | after an update utilization <= adjusted_utilization if and only if time has passed since the last one or it held before |
| PowerupInvariants.SameSecondSale | contracts/eosio.system/src/powerup.cpp:334-389 | a run from the initial state, an opening and two sales in one second, on which utilization <= adjusted_utilization fails after the update |
| PowerupInvariants.SoldValid | contracts/eosio.system/src/powerup.cpp:355-365 | what is sold never exceeds the market, which stays consistent |
| PowerupInvariants.ConfiguredValid | contracts/eosio.system/src/powerup.cpp:144-223 | an accepted configuration leaves a consistent market on a valid schedule and does not touch what is sold |
| PowerupOrders.ExpireTakesOldest | contracts/eosio.system/src/powerup.cpp:70-89 | a queue run erases the orders that expired first, all that are due or `max` of them, and leaves the others unchanged |
| PowerupOrders.SaleFits | contracts/eosio.system/src/powerup.cpp:355-365 | a market sells a fraction if and only if it is not empty, the fee is positive and the unsold part covers it |
| PowerupOrders.SaleAddsOneOrder | contracts/eosio.system/src/powerup.cpp:353-389 | a sale adds one order of the receiver's that holds exactly the fractions asked for and expires after exactly `days` days |
| PowerupOrders.UnexpiredStays | contracts/eosio.system/src/powerup.cpp:70-89 | an order that has not expired outlives every action unchanged |
| SystemSchedules.PowerupLasts | contracts/eosio.system/src/powerup.cpp:334-396 | in every reachable state a powerup lasts `days` days: until then the order stays and the account has at least its NET and CPU; then a queue run erases it |
| PowerupOrders.RatioIsLinear | contracts/eosio.system/src/powerup.cpp:91-98 | the weight ratio lies on the line from the initial to the target ratio, rounded up |
| PowerupOrders.WeightExact | contracts/eosio.system/src/powerup.cpp:99-102 | weight and assumed stake together make the assumed stake the ratio's part of the whole, rounded down |
| PowerupOrders.DecayIsBounded | contracts/eosio.system/src/powerup.cpp:104-117 | adjusted_utilization decays towards utilization by what the decay says, never past it |
| PowerupOrders.ConfiguredAsAsked | contracts/eosio.system/src/powerup.cpp:144-223 | when a full configuration is accepted, and that it takes effect as given, from now on |
| PowerupOrders.ConfiguresExactly | contracts/eosio.system/src/powerup.cpp:119-253 | a configuration brings the decay up to date, caps adjusted utilization at the new weight, leaves what is sold, and the reserve follows the weights |
| PowerupOrders.OmittedSettingsStay | contracts/eosio.system/src/powerup.cpp:144-223 | a setting left out stays |
| PowerupInvariants.OmittedSettingsKeepWeight | contracts/eosio.system/src/powerup.cpp:144-223 | a configuration without ratio and assumed stake leaves the weight where it is |
| PowerupInvariants.CfgKeeps | contracts/eosio.system/src/powerup.cpp:119-253 | configuration keeps the market consistent; a market that would no longer hold what it sold is refused |
| PowerupContract.PowerupContract.AdjustResources | contracts/eosio.system/src/powerup.cpp:19-68 | the account's row is created, changed or erased; fails exactly if a total would be negative |
| PowerupContract.PowerupContract.ExpireOrders | contracts/eosio.system/src/powerup.cpp:70-89 | the loop expires the same orders, with the same effect, as the recursive specification |
| PowerupContract.PowerupContract.ProcessPowerupQueue | contracts/eosio.system/src/powerup.cpp:70-89 | both markets are brought up to date and the reserve's change is returned |
| PowerupContract.PowerupContract.PowerUp | contracts/eosio.system/src/powerup.cpp:334-396 | the action meets its specification and keeps the invariant; the order is the receiver's and expires after `days` days |
| PowerupContract.PowerupContract.PowerupExec | contracts/eosio.system/src/powerup.cpp:317-332 | the action meets its specification and keeps the invariant |
| PowerupContract.PowerupContract.CfgPowerup | contracts/eosio.system/src/powerup.cpp:119-253 | the action meets its specification and keeps the invariant |
| PowerupContract.UpdateWeight | contracts/eosio.system/src/powerup.cpp:91-102 | the stepwise computation with truncating division equals its specification, and returns the growth |
| PowerupContract.TruncatesTowardsInitial | contracts/eosio.system/src/powerup.cpp:95-98 | C++ division of the negative interpolation term truncates towards the initial ratio |
| SystemLedger.OneLedgerAlways | contracts/eosio.system/src/delegate_bandwidth.cpp:208-253 | in every reachable state of staking, REX, powerup and RAM together each account's NET and CPU are its delegations + loans + powerup orders, plus the unsold market for eosio.reserv |
| SystemLedger.NothingBlocksExpiry | contracts/eosio.system/src/rex.cpp:519-589 | in every reachable state loan maintenance and powerup expiry run to the end, and undelegation needs nothing but the delegation |
| SystemLedger.AlwaysSolvent | contracts/eosio.system/src/delegate_bandwidth.cpp:169-345 | in every reachable state eosio.rex, eosio.stake and eosio.ram can pay what they owe |
| SystemLedger.StepKeeps | contracts/eosio.system/src/rex.cpp:57-95 | every action of every subsystem keeps all four invariants over the one shared table |
| StakingGuarantees.PoolsAreSolvent | contracts/eosio.system/src/staking_pool.cpp:423-584 | after any run eosio.srpool holds exactly the sum of pool balances and what it was given, each pool's total shares are the shares owned, and shares exist if and only if tokens do |
| StakingGuarantees.OthersNeverDilute | contracts/eosio.system/include/eosio.system/staking_pool.hpp:18-60 | over any run of others' actions an owner keeps the same shares, worth at least as many tokens |
| StakingGuarantees.ClaimsAreSpaced | contracts/eosio.system/src/staking_pool.cpp:461-495 | whatever happens in between, two successful claims of one stake are at least claim_period seconds apart |
| StakingGuarantees.ClaimsLeave | contracts/eosio.system/src/staking_pool.cpp:402-421 | over k claims without moving stake out, at least (1 - claim_period / duration)^k of the shares remain |
| StakingInvariants.WithdrawMeaning | contracts/eosio.system/src/staking_pool.cpp:402-421 | a withdrawal pays exactly the tokens asked for or all available ones, takes exactly their shares, and fails only for a claim of nothing |
| StakingInvariants.DepositMeaning | contracts/eosio.system/src/staking_pool.cpp:382-398 | a deposit never fails on a reachable pool, and moves next_claim forward but never beyond now + 2 claim_period slots |
| StakingInvariants.BuyValid | contracts/eosio.system/include/eosio.system/staking_pool.hpp:20-41 | buying never divides by zero and keeps the value of a share exactly |
| StakingInvariants.SellValid | contracts/eosio.system/include/eosio.system/staking_pool.hpp:27-51 | selling never divides by zero and never lowers the value of a share |
| StakingInvariants.WorthBounds | contracts/eosio.system/include/eosio.system/staking_pool.hpp:43-51 | shares are worth at most their exact part of the balance, and all of it only if they are all the shares |
| StakingInvariants.SharesForExact | contracts/eosio.system/include/eosio.system/staking_pool.hpp:54-60 | the shares computed for an amount are worth exactly that amount and are no more than the owner has |
| StakingTrades.BlendExact | contracts/eosio.system/src/staking_pool.cpp:391-397 | next_claim moves from the old time towards the latest one by the new tokens' part of the way, rounded down |
| StakingTrades.DepositExact | contracts/eosio.system/src/staking_pool.cpp:382-398 | a deposit never fails, buys shares at the pool's value, or one per token in an empty pool, and delays the next claim by that rule |
| StakingTrades.TakesFairly | contracts/eosio.system/src/staking_pool.cpp:402-421 | a withdrawal takes all shares for what they are worth, or exactly the shares of what it pays |
| StakingTrades.WorthExact | contracts/eosio.system/include/eosio.system/staking_pool.hpp:43-51 | shares are worth their part of the balance, rounded down |
| StakingTrades.PortionExact | contracts/eosio.system/src/staking_pool.cpp:410-412 | the claimable part is claim_period / duration of the stake, rounded down |
| StakingTrades.StakeExact | contracts/eosio.system/src/staking_pool.cpp:423-445 | stake2pool takes the tokens, makes that deposit, and changes no other stake |
| StakingTrades.ClaimExact | contracts/eosio.system/src/staking_pool.cpp:461-495 | claimstake pays the claimable part, or less if less is asked, for a fair number of shares, sets next_claim claim_period seconds ahead, and changes no other stake |
| StakingTrades.TransferExact | contracts/eosio.system/src/staking_pool.cpp:497-552 | transferstake takes stake out without moving the sender's timer and deposits exactly these tokens for the receiver |
| StakingTrades.UpgradeExact | contracts/eosio.system/src/staking_pool.cpp:557-584 | upgradestake takes stake out without moving its timer and deposits exactly these tokens in the longer pool |
| StakingTrades.NamebidExact | contracts/eosio.system/src/staking_pool.cpp:658-675 | of a winning bid the pools are credited the elapsed part of the transition, if any has shares |
| StakingTrades.SettingsExact | contracts/eosio.system/src/staking_pool.cpp:107-142 | transition and transfer limit change as given or stay; the transition may not end before it begins |
| StakingTrades.NamebidsGo | contracts/eosio.system/src/staking_pool.cpp:677-680 | waiting name-bid proceeds go to the pools, once, as soon as one has shares |
| StakingTrades.SplitIsEven | contracts/eosio.system/src/staking_pool.cpp:636-644 | the parts of any two active pools differ by at most one unit, and inactive pools get nothing |
| StakingTrades.PayIsEven | contracts/eosio.system/src/staking_pool.cpp:725-731 | voter pay is the same for every pool that has shares |
| StakingTrades.ChannelExact | contracts/eosio.system/src/staking_pool.cpp:615-647 | of a fee the pools get the elapsed part of the transition, rounded down, or all of it, if any has shares |
| StakingInvariants.ClaimKeeps | contracts/eosio.system/src/staking_pool.cpp:461-495 | a claim is refused only for its arguments, its timer, the voting requirement or because nothing can be claimed: the checks for negative pools are dead |
| StakingInvariants.TransferKeeps | contracts/eosio.system/src/staking_pool.cpp:497-552 | when a transfer succeeds, what it moves, and whom it spares |
| StakingInvariants.UpgradeKeeps | contracts/eosio.system/src/staking_pool.cpp:557-584 | when an upgrade succeeds, what it moves, and whom it spares |
| StakingInvariants.SplitMeaning | contracts/eosio.system/src/staking_pool.cpp:636-644 | the split over active pools hands out the amount to the last unit |
| StakingInvariants.ChannelKeeps | contracts/eosio.system/src/staking_pool.cpp:615-647 | channelling moves the same amount into balances and into eosio.srpool |
| StakingInvariants.StepKeeps | contracts/eosio.system/src/staking_pool.cpp:382-584 | every action keeps the invariant, loses no token, and spares the stake of everyone not involved |
| StakingInvariants.TimersNeverGoBack | contracts/eosio.system/src/staking_pool.cpp:382-584 | no action moves anyone's next_claim backwards |
| StakingInvariants.TransitionBounds | contracts/eosio.system/include/eosio.system/staking_pool.hpp:94-101 | the pools' part of a fee is between nothing and all of it |
| StakingContract.DepositPool | contracts/eosio.system/src/staking_pool.cpp:382-398 | deposit_pool meets its specification: fair shares, and the delay of the next claim in proportion to the new tokens |
| StakingContract.WithdrawPool | contracts/eosio.system/src/staking_pool.cpp:402-421 | withdraw_pool meets its specification |
| StakingContract.CreatePools | contracts/eosio.system/src/staking_pool.cpp:65-106 | the pools are created, all distinct and empty, if and only if durations, claim periods and vote weights pass the checks |
| StakingContract.TokenPool.Buy | contracts/eosio.system/include/eosio.system/staking_pool.hpp:20-25 | shares bought, balance and shares grown |
| StakingContract.TokenPool.Sell | contracts/eosio.system/include/eosio.system/staking_pool.hpp:27-32 | tokens sold, balance and shares reduced |
| StakingContract.StakingContract.StakeToPool | contracts/eosio.system/src/staking_pool.cpp:423-445 | the action meets its specification and keeps the invariant |
| StakingContract.StakingContract.ClaimStake | contracts/eosio.system/src/staking_pool.cpp:461-495 | the action meets its specification and keeps the invariant |
| StakingContract.StakingContract.TransferStake | contracts/eosio.system/src/staking_pool.cpp:497-552 | the action meets its specification and keeps the invariant |
| StakingContract.StakingContract.UpgradeStake | contracts/eosio.system/src/staking_pool.cpp:557-584 | the action meets its specification and keeps the invariant |
| StakingContract.StakingContract.ActivePools | contracts/eosio.system/src/staking_pool.cpp:619-626 | exactly the pools with shares, in order, each once |
| StakingContract.StakingContract.DistributeAmong | contracts/eosio.system/src/staking_pool.cpp:637-643 | the loop of rounded differences pays each active pool its part of the exact split |
| StakingContract.StakingContract.TransitionChannelToPools | contracts/eosio.system/src/staking_pool.cpp:615-647 | tokens and balances grow by the same amount; the rest is returned |
| StakingContract.StakingContract.DistributeNamebidsToPools | contracts/eosio.system/src/staking_pool.cpp:677-680 | waiting name-bid proceeds go to the pools once one is active |
| StakingContract.StakingContract.PayEachPool | contracts/eosio.system/src/staking_pool.cpp:725-731 | every pool with shares gets the same, and the total is what was added |
| StakingContract.StakingContract.PayVoters | contracts/eosio.system/src/staking_pool.cpp:723-749 | tokens issued equal what the pools were credited |
| StakingContract.StakingContract.CfgSrpool | contracts/eosio.system/src/staking_pool.cpp:107-142 | the transition, the pay settings and the transfer limit can change later, each within its range, and nothing else |
| PoolVotesInvariants.VotesAreConserved | contracts/eosio.system/src/staking_pool.cpp:218-353 | after every action, per pool: last_votes = owned shares (+ proxied shares of a proxy); proxied shares = sum of last_votes of the voters behind; pool_votes = sum over unproxied voters approving the producer; total_votes = sum over producers |
| PoolVotesInvariants.ProxiesNeverCycle | contracts/eosio.system/src/staking_pool.cpp:251-353 | in every reachable state no chain of proxies returns to its start, though former proxies may choose proxies |
| PoolVotesInvariants.RefreshKeeps | contracts/eosio.system/src/staking_pool.cpp:325-353 | pushing a vote along the chain leaves every tally exact and nobody on the chain out of date |
| PoolVotesInvariants.RefreshUntouched | contracts/eosio.system/src/staking_pool.cpp:325-353 | the recursion never revisits the voter whose vote is being changed |
| PoolVotesInvariants.UpdateVotesKeeps | contracts/eosio.system/src/staking_pool.cpp:251-323 | changing a vote leaves every tally exact, whichever of the old and the new vote were proxies |
| PoolVotesInvariants.StepKeeps | contracts/eosio.system/src/staking_pool.cpp:423-601 | every action keeps all tallies exact and the proxy graph well-founded |
| PoolVotesContract.RefreshFrame | contracts/eosio.system/src/staking_pool.cpp:325-353 | writing a voter's row after the recursion, as the code does, or before it is the same |
| PoolVotesContract.RefreshRevote | contracts/eosio.system/src/staking_pool.cpp:251-323 | charging producers commutes with the recursion along proxies |
| PoolVotesContract.PoolVotesContract.AddPoolVotes | contracts/eosio.system/src/staking_pool.cpp:230-239 | a producer's votes and the totals move together, or the call fails for a producer not upgraded |
| PoolVotesContract.PoolVotesContract.UpdatePoolProxy | contracts/eosio.system/src/staking_pool.cpp:325-353 | the recursion terminates and equals eager refreshing |
| PoolVotesContract.PoolVotesContract.UpdatePoolVotes | contracts/eosio.system/src/staking_pool.cpp:251-323 | the checks hold exactly when the vote is allowed, and the in-order updates equal the specification; repeating a vote never fails |
| PoolVotesContract.PoolVotesContract.VoteWithPool | contracts/eosio.system/src/staking_pool.cpp:586-591 | the action meets its specification and keeps the invariant |
| PoolVotesContract.PoolVotesContract.RegPoolProxy | contracts/eosio.system/src/staking_pool.cpp:593-601 | the action meets its specification and keeps the invariant |
| PoolVotesContract.PoolVotesContract.ChangeStake | contracts/eosio.system/src/staking_pool.cpp:423-495 | a change of shares followed by the repeated vote keeps the invariant |
| PoolVotesContract.PoolVotesContract.MoveStake | contracts/eosio.system/src/staking_pool.cpp:497-552 | the two repeated votes of a transfer, after both owners' shares have changed, never fail and keep the invariant |
| VoteRules.VoteIsAccepted | contracts/eosio.system/src/staking_pool.cpp:251-290 | a pool vote is accepted if and only if it names a registered proxy, by a voter who is none, or 21 to 30 ordered, active producers with pool votes |
| VoteRules.VoteIsRecorded | contracts/eosio.system/src/staking_pool.cpp:251-323 | an accepted vote is recorded as cast; nobody else's choice, role or shares change |
| VoteRules.StakeIsRecorded | contracts/eosio.system/src/staking_pool.cpp:423-495 | a change of stake writes the shares and changes no one's choice |
| VoteRules.RoleIsRecorded | contracts/eosio.system/src/staking_pool.cpp:593-601 | an account becomes a proxy if and only if it uses none, and can always stop being one |
| VoteRules.RegistrationIsRecorded | contracts/eosio.system/src/staking_pool.cpp:156-187 | registering and deactivating keep pool votes and touch one producer |
| VoteWeight.EveryShareOnce | contracts/eosio.system/src/staking_pool.cpp:251-353 | the shares owned in a pool are the votes of unproxied voters plus the votes stranded with accounts that are no proxy any more: nothing counts twice |
| VoteWeight.ProxiedTwice | contracts/eosio.system/src/staking_pool.cpp:218-228 | counted by proxy or by voter, the votes passed on are the same |
| VoteWeight.ProducerVotesBounded | contracts/eosio.system/src/staking_pool.cpp:230-249 | no producer's pool votes are negative or exceed the shares in existence |
| PoolSystem.EveryShareCountsOnce | contracts/eosio.system/src/staking_pool.cpp:423-601 | over runs of staking and voting actions together each share of a pool counts exactly once or is stranded |
| PoolSystem.VotesAreShares | contracts/eosio.system/src/staking_pool.cpp:423-601 | over the same runs 0 <= pool_votes <= the pool's total shares, for each producer and pool |
| PoolSystem.VotesFollow | contracts/eosio.system/src/staking_pool.cpp:423-584 | repeating the owner's vote never blocks an action on stake, and both halves of the pool_voter row agree afterwards |
| PoolSystem.ClaimSucceeds | contracts/eosio.system/src/staking_pool.cpp:461-495 | a claim succeeds if and only if the recorded pool vote is for a proxy or 21 producers, the timer has run out and something can be claimed |
| PoolSystem.StepKeeps | contracts/eosio.system/src/staking_pool.cpp:423-647 | every action keeps the pools, the votes and their shared table consistent |
| PoolSystem.RegistrationStays | contracts/eosio.system/src/staking_pool.cpp:423-601 | only registering and deactivating a producer change who is registered, active or upgraded to pool votes |
| VoteRecords.RecordsAreClean | contracts/eosio.system/src/staking_pool.cpp:364-380 | in every reachable state each upgraded producer has one record in totpoolvotes, as active as the producer and never negative, so the scan of the table is exact |
| VoteRecords.RecordingNeverFails | contracts/eosio.system/src/staking_pool.cpp:682-691 | in every reachable state updatevotes succeeds if and only if the producer is active and upgraded, and registering never fails: the lookups and the corruption check are dead |
| VoteRecords.EachPoolCounts | contracts/eosio.system/src/staking_pool.cpp:364-371 | a pool's votes count with that pool's weight in calc_votes |
| VoteRecords.RecordIsWeightOfVoters | contracts/eosio.system/src/staking_pool.cpp:364-371 | in every reachable state recording writes the sum, over the voters approving the producer, of the weighted shares each votes with, and nobody else's record changes |
| VoteRecords.RecordsAreKept | contracts/eosio.system/src/staking_pool.cpp:156-187 | registering and deactivating keep recorded votes and touch one record |
| VoteRecords.StepKeeps | contracts/eosio.system/src/staking_pool.cpp:156-187 | staking, voting, registering, deactivating and recording keep producers and records in step |
| VoteRecords.ElectedAreTop | contracts/eosio.system/src/voting.cpp:104-165 | with the recorded pool votes of any reachable state the merge is the pools' top choices followed by the top of the remaining producers |
| VoteRecordsContract.CalcVotes | contracts/eosio.system/src/staking_pool.cpp:364-371 | the loop computes the weighted sum, and refuses votes for another number of pools |
| VoteRecordsContract.VoteRecordsContract.UpdateVotes | contracts/eosio.system/src/staking_pool.cpp:682-691 | the recorded votes become the weighted sum of the current ones |
| VoteRecordsContract.VoteRecordsContract.UpdateTotalPoolVotes | contracts/eosio.system/src/staking_pool.cpp:373-380 | exactly the top of the table as recorded before is recorded anew, although recording changes the order |
| VoteRecordsContract.VoteRecordsContract.EnableProducer | contracts/eosio.system/src/staking_pool.cpp:156-177 | an upgraded producer becomes active, another one gets pool votes and a record, and the tables stay in step |
| VoteRecordsContract.VoteRecordsContract.DeactivateProducer | contracts/eosio.system/src/staking_pool.cpp:179-187 | producer and record become inactive together |
| FeeChannel.FeeIsSplit | contracts/eosio.system/src/staking_pool.cpp:649-656 | nothing of a fee is lost between the pools and REX; one that must go in full is refused if and only if there is neither REX nor an active pool |
| FeeChannel.NamebidIsSplit | contracts/eosio.system/src/staking_pool.cpp:658-675 | a winning bid is credited once, in full if there is REX |
| Transitions.PartExact | contracts/eosio.system/include/eosio.system/staking_pool.hpp:94-101 | nothing before the transition, all after it, and in between the elapsed part, rounded down |
| Transitions.PartGrows | contracts/eosio.system/include/eosio.system/staking_pool.hpp:94-101 | the part of fees and of the 21 seats that goes to the pools grows from nothing to all and never shrinks |
| ProxyGraph.NoCycle | contracts/eosio.system/src/voting.cpp:234-298 | a ranked proxy graph has no cycle of any length |
| ProxyGraph.ChoosingKeeps | contracts/eosio.system/src/voting.cpp:289-298 | choosing an account that uses no proxy keeps the graph ranked |
| ProxyGraph.ChainsGrow | contracts/eosio.system/src/voting.cpp:363-380 | chains of proxies of any length are ranked too, so no bound on their length can be had |
| Voting.ProxiesNeverCycle | contracts/eosio.system/src/voting.cpp:363-439 | in every reachable state no chain of voter proxies returns to its start |
| Voting.VoteIsAccepted | contracts/eosio.system/src/voting.cpp:234-299 | when a stake vote is accepted, and that it is recorded as cast with the voter's weight |
| VotingWeights.ProxyIsCurrent | contracts/eosio.system/src/voting.cpp:271-340 | after a vote for a proxy with a weight that is not negative, the proxy votes with its true weight |
| VotingWeights.StakeIsRecorded | contracts/eosio.system/src/delegate_bandwidth.cpp:347-370 | when a change of stake is refused; it changes the stake by just that and repeats a recorded vote with the new weight |
| VotingWeights.ValueIsRecorded | contracts/eosio.system/src/rex.cpp:1195-1219 | a change in the value of REX changes the stake and nothing else until the next vote |
| VotingWeights.RoleIsRecorded | contracts/eosio.system/src/voting.cpp:363-380 | regproxy succeeds if and only if it changes the role of an account that uses no proxy, which then votes with its true weight |
| VotingWeights.LinkDrifts | contracts/eosio.system/src/voting.cpp:382-439 | a link changes what is recorded for the voter's proxy beyond the voters behind it only by a change of at most one unit, which is not passed on |
| VotingWeights.StepDrifts | contracts/eosio.system/src/voting.cpp:234-439 | each action changes each proxy's drift by at most two units while no weight is negative |
| VotingWeights.ProxiedWeightIsClose | contracts/eosio.system/src/voting.cpp:234-439 | over any run with weights that are never negative, proxied_vote_weight is the sum of the weights of the voters behind, up to two units for each action |
| Voting.VoterIsNotRevisited | contracts/eosio.system/src/voting.cpp:271-299 | the recursions started by a vote never touch the voter's own row, which the code still holds an iterator to |
| Voting.OffChainUntouched | contracts/eosio.system/src/voting.cpp:382-439 | propagation touches only voters on the chain |
| Voting.PropagateFrame | contracts/eosio.system/src/voting.cpp:382-439 | propagation commutes with rewriting a row that ranks above its start |
| Voting.RepeatIsAllowed | contracts/eosio.system/src/voting.cpp:234-248 | no check of update_votes can fail when a recorded vote is repeated |
| VotingContract.VotingContract.UpdateVotingPower | contracts/eosio.system/src/delegate_bandwidth.cpp:347-370 | a change of stake fails only for a negative stake or unvested tokens of b1: the repeated vote never does |
| VotingContract.VotingContract.PropagateWeightChange | contracts/eosio.system/src/voting.cpp:382-439 | the recursion terminates and equals its specification; a voter is never proxy and proxied at once |
| VotingContract.VotingContract.UpdateVotes | contracts/eosio.system/src/voting.cpp:234-361 | the checks hold exactly when the vote is allowed; the row written last equals writing it before |
| VotingContract.VotingContract.VoteProducer | contracts/eosio.system/src/voting.cpp:224-232 | a vote is accepted if and only if it meets the rules of voting and, for holders of REX, the requirement; the proxy graph stays well-founded |
| VotingContract.VotingContract.RegProxy | contracts/eosio.system/src/voting.cpp:363-380 | fails exactly if nothing changes or the account uses a proxy |
| Ballots.CheckBallot | contracts/eosio.system/src/voting.cpp:235-244 | comparing neighbours decides whether the list of producers is sorted without duplicates |
| Election.ScanIsTop | contracts/eosio.system/src/staking_pool.cpp:355-362 | the early-exit scan of the byvotes index is filter, sort and take, as long as no inactive row has negative votes |
| Election.ScanNeedsClean | contracts/eosio.system/src/staking_pool.cpp:355-362 | it is so for every length if and only if no inactive row with negative votes stands before an eligible one |
| Election.InactiveCanBlock | contracts/eosio.system/include/eosio.system/eosio.system.hpp:195 | a table on which the scan stops too early; it takes a negative vote on an inactive row, which exact arithmetic never records in totpoolvotes |
| Election.CleanElection | contracts/eosio.system/src/voting.cpp:104-165 | on any tables without such rows the merge is the pools' top choices followed by the top of the remaining producers |
| Election.TopIsUnique | contracts/eosio.system/src/voting.cpp:104-165 | the highest-voted active producers, ties by name, are one list only |
| Election.ElectedAreDistinct | contracts/eosio.system/src/voting.cpp:104-165 | at most 21 producers, no one twice, each active with votes, whatever the votes are |
| ElectionContract.TopActiveProducers | contracts/eosio.system/src/staking_pool.cpp:355-362 | the loop over the index equals the specified scan |
| ElectionContract.SortByLocation | contracts/eosio.system/src/voting.cpp:151-154 | sorting by location only reorders the elected producers |
| ElectionContract.ElectionContract.Merge | contracts/eosio.system/src/voting.cpp:134-145 | the second scan appends what it finds, skipping those already chosen |
| ElectionContract.ElectionContract.UpdateElectedProducers | contracts/eosio.system/src/voting.cpp:104-165 | the proposal is a reordering of the elected producers, is made if and only if it does not shrink the schedule, and last_producer_schedule_size never decreases |

## Left out

- SystemGuarantees.Solvency: is an equality up to what was sent to eosio.rex without an action and up to what a restart of an empty pool drops, as in the code.
- SystemGuarantees.LazyEqualsEager: is stated for block times at least 30 days after the epoch and more than 31 days before 2^32 seconds, outside of which the contract's unsigned seconds wrap around.
- VotingWeights.ProxiedWeightIsClose: is for runs on which no recorded weight is negative; drift itself can leave one slightly below zero.
- SystemSchedules.UnstakeToRexNeedsOnlyStake: whether the owner meets the voting requirement is a parameter, and eosio.stake staking on its own behalf is left out.
- SystemSchedules.RefundComesDue: leaves out eosio.stake staking on its own behalf.
- RexPrice.PriceNeverFalls: speaks of states with REX outstanding; the empty pool has no price, and a restart sets it anew.
- RexActions.StepKeeps: ChannelNamebid expects a positive bid, as the only caller passes one.
- Bandwidth.UndelegationNeedsOnlyStake: the vote that undelegating repeats, the change of `voter.staked` and the vesting rule for b1 can abort the real action; they are not part of this model.
- Bandwidth.StakeIsConserved: leaves out eosio.stake staking on its own behalf, for which tokens do not move.
- SystemLedger.NothingBlocksExpiry: is about the checks on tokens, pools and resources; authorisation, and the vote repeated by undelegation, are not modelled.
- SystemLedger.OneLedgerAlways: `setacctnet`, `setacctcpu` and accounts with managed resources change what the chain grants, not the table, and are not modelled.
- RexContract.RexContract.Deposit: the balance of eosio.rex is a number of its own, not an entry of the token ledger that Bandwidth uses, so the owner's tokens are not checked.
- RexContract.RexContract.BuyRex: whether the buyer meets the voting requirement is a parameter; the update of `vote_stake` and `voter.staked` and the vote it repeats, which can abort, are not modelled, and unstaketorex does not keep them exact in the contract.
- RexContract.RexContract.UpdateRex: the revaluation of `vote_stake` and the vote it repeats are not modelled.
- Rex.State: the return pool and its buckets, two rows in the contract, are one value.
- RamContract.RamContract.BuyRam: the payer's tokens and the fee's way to eosio.ramfee are not modelled; FeeChannel says what becomes of a fee.
- RamContract.RamContract.SellRam: the fee's way to eosio.ramfee is not modelled; convert, convert_to_exchange and convert_from_exchange, which the actions no longer use and which take powers of floating-point numbers, are not modelled either.
- BandwidthContract.BandwidthContract.ChangeBw: the change of the voter's stake and the vote it repeats are not part of it; VotingContract.UpdateVotingPower models them on their own.
- BandwidthContract.BandwidthContract.DelegateBw: as ChangeBw.
- BandwidthContract.BandwidthContract.UndelegateBw: as ChangeBw.
- PowerupInvariants.PowerUpKeeps: the fees that calc_powerup_fee computes and the decay that exp yields are parameters, the decay clamped as in the code; the check on managed accounts, the payment of fees and the choice of the new order's key are not modelled.
- PowerupContract.PowerupContract.PowerUp: as PowerupInvariants.PowerUpKeeps.
- PowerupContract.PowerupContract.CfgPowerup: the settings of the price curve, exponent, decay and prices, are not part of the market.
- StakingContract.StakingContract.PayVoters: what updatepay issues to each pool is a parameter, and the pay of producers and its cap are left out, since votes outside the refreshed set may be stale.
- StakingPools.Buy: shares are exact; the contract's are doubles, whose rounding is not modelled.
- StakingContract.StakingContract.ClaimStake: whether the owner meets the voting requirement is a parameter here; PoolSystem reads it from the votes.
- VotingContract.VotingContract.PropagateWeightChange: the tallies of producers and their vote-pay shares are left out, because changes below one unit are not propagated and exact tallies do not hold; the factor from stake to weight is a parameter.
- VotingContract.VotingContract.UpdateVotes: as PropagateWeightChange; activation of the chain is left out, and whether the producers are registered is a parameter.
- VotingContract.VotingContract.VoteProducer: whether the voter holds REX is a parameter, and the tallies of producers are left out.
- VotingContract.VotingContract.UpdateVotingPower: whether b1's tokens have vested is a parameter, and the tallies of producers are left out.
- VoteRecords.ElectedAreTop: takes the tallies of the producers table as given and asks that inactive rows there have none below zero, which is the exact condition for the scan; the model does not compute these tallies.
- FeeChannel.FeeIsSplit: is about one fee; the actions that raise fees are not linked to it.
- Election.Elected: the index is any listing of the rows in the order of its key; how the database keeps it is not modelled, nor is the chain's acceptance of a schedule, which is a parameter.
- Authorisation, inline notifications, RAM payers, serialisation, symbols of assets and 64-bit overflow are not modelled; amounts are assumed to stay within the limits of the token contract.
- First-in, first-out filling of sell orders is not claimed: a later, smaller order can be filled first.
- Name bidding, claimrewards, inflation, account creation, setparams, setpoolnotif and the other administrative actions are not part of this model.
