# Verified models of four Hydration protocols

This project models, in Dafny, four stateful protocols of the Hydration runtime and proves what
they keep over every run.

* **DCA schedules** (`Dca*.dfy`, `Ledger.dfy`). Orders that reserve a budget and are executed block
  by block: planning into bounded per-block lists with randomised overflow, fees and trades paid out
  of the reserve, retries with exponential backoff, extra gas, completion and termination, and
  balances held back by locks. `DcaModel` gives every operation as a function on the pallet's
  storage; `DcaPallet.Pallet` is the pallet itself, one field per storage item updated in place, each
  method proved equal to its function; the other `Dca` modules hold the proofs, with the main
  results in `DcaTheorems`, `DcaEndings`, `DcaMoney`, `DcaTurns`, `DcaVerdicts`, `DcaCalls` and
  `DcaRoundTrip`.
* **The issuance fuse** (`Fuse*.dfy`). The deposit limiter of the circuit breaker and the mint gate
  in front of it, for one asset and any number of accounts: `FuseModel`, the class
  `FusePallet.IssuanceFuse`, and the laws in `FuseLaws`, `FuseRate`, `FuseRetune`,
  `FuseFronts` and `FuseRelease`.
* **Permit dispatch** (`Permit*.dfy`). Unsigned, sponsored and precompile dispatch of pre-signed
  permits, with calls nested in calls to any depth, the fee-payer override, fees, nonces and the
  auto-pause: `PermitModel`, the class `PermitPallet.Runtime`, `PermitLaws`, `PermitTheorems` and
  `PermitSoundness`.
* **ERC-20 allowances** of the currency precompile (`Allowance.dfy`).

Prices, fees, trade results, random draws, EVM results and signature checks are inputs: every
theorem holds for all of them. Amounts are unbounded naturals, with u32 and u128 limits, overflow and
saturation written out where the code has them. A run of the DCA pallet is any sequence of blocks
(with any shuffle of the due schedules), calls by anyone, and arbitrary outside changes to free,
otherwise reserved and frozen balances.

Some statements one would expect of the code are not true of it. For each, the named lemmas show
where it fails and say when it holds, exactly unless listed under "Left out":

* A schedule with `max_retries` r is removed on failure r + 1. Not when the backoff block overflows
  u32: at the latest after 27 failures (`RetryCeiling`, `LargeRetryLimitIsCut`), and near the end of
  the block numbers on the first, as a complete run shows (`FirstFailureMayEnd`). The exact condition
  is `RetrySurvivesIff`.
* The mint gate accepts exactly what a deposit would credit in full. Not when issuance has fallen
  below the period's baseline (`GateBelowBaseline`), nor a mint of zero during a lockdown
  (`ZeroMintInLockdown`, `ZeroMintInstance`); the exact relation is `MintIffWhollyFree`, and the
  matching one for burns is `BurnRestoresBudget`.
* What the fuse reserves is never more than the deposit. Not after the limit was lowered during a
  period (`LoweredLimit`, with a state in `LoweredLimitInstance`).
* Deposits are rate limited in every block. Not in the last block number, where saturation ends a
  period at once (`LastBlockIsUnlimited`); everywhere before it, `RateLimit`.
* A permit commits at most once. The nonce is advanced after the run, so a dispatch with the same
  permit inside its own run commits twice (`NestedDispatchCommitsToo`, `EnclosedDispatchCommitsToo`).
  `CommitsOnce` guarantees once whenever no submission nests a permit in itself in that way, and
  `SameNonceIsNested` shows that nothing but such nesting can use a nonce twice. Whether the EVM
  runner admits nesting at all is decided outside this repository; the model takes it as an input.
* What `validate_unsigned` accepts is committed by the dispatch. Not while the call is paused, which
  pre-validation does not look at (`AcceptedCommits`).
* Spent plus remaining allowance equals the approved amount. Not for the u128 maximum, which is never
  used up (`SpentPlusLeftIsGranted`).

A fixed budget is over after finitely many attempts on every run with fees above zero; a sell order
is so whatever the fees (`FixedBudgetIsFinite`). The runtime takes its fee from a nonzero weight with
a positive coefficient and rounds up (runtime/hydradx/src/system.rs:644-653). The model's input space is wider than the runtime's and also has attempts that cost nothing at all; for those,
`FixedBudgetEnds` bounds the attempts together with the number of such idle ones, and
`IdleAttemptChangesNoBudget` shows why they are counted.

Where documentation and code differ the model follows the code: `force_lift_lockdown` is documented
to work in any state, but refuses an asset that is not locked; the `unlock_reserves` call is offered
for leftovers of ended schedules, but no reachable state has any (`UnlockFindsNothing`).

## Model

| member | source | states |
|---|---|---|
| `Ledger.RunKeepsCover` | integration-tests/src/dca.rs:6386-6438 | No interleaving of reserving, unreserving and spending takes the total below the lock; what leaves is exactly what was spent, and at most the total above the lock |
| `Ledger.OutflowBoundIsReached` | integration-tests/src/dca.rs:6481-6525 | Everything above the lock can leave, so the bound is exact |
| `Ledger.SpendingToTheFloor` | integration-tests/src/dca.rs:6386-6438 | Free funds may drop below the lock by exactly what is reserved, and then nothing more can be spent |
| `Ledger.UnreservedUnitsRefreeze` | integration-tests/src/dca.rs:6527-6582 | When the lock takes the whole total, unreserved units are frozen at once and fund nothing |
| `DcaRuns.RunKeeps` | pallets/dca/src/lib.rs:141-225 | The invariant (storage maps agree, plan, reserves, counters, accounting of every schedule) holds in every state of every run |
| `DcaRuns.StepKeeps` | pallets/dca/src/lib.rs:141-712 | One block, call or outside balance change keeps the invariant |
| `DcaRuns.ScheduleKeeps` | pallets/dca/src/lib.rs:506-609 | Creating a schedule keeps the invariant |
| `DcaRuns.TerminateKeeps` | pallets/dca/src/lib.rs:625-671 | Terminating by owner or authority keeps the invariant and strikes the id from its block |
| `DcaCalls.TerminateIff` | pallets/dca/src/lib.rs:625-671 | In every reachable state the call succeeds exactly if the schedule is live, the caller its owner or the authority, and a named block its own; an outsider is refused as such, and no other schedule is touched |
| `DcaCalls.SchedulesLeaveTwoWays` | pallets/dca/src/lib.rs:625-671 | On every run a schedule leaves only in a block it was due in, or terminated by its owner or the authority |
| `DcaCalls.ScheduleIff` | pallets/dca/src/lib.rs:506-609 | The call succeeds exactly if the owner calls, the order is acceptable at the prices of the moment, an id is left, the budget can be reserved above the lock and a block is found; the reserve is the total, or two trades with fees for a rolling schedule |
| `DcaRuns.UnlockFindsNothing` | pallets/dca/src/lib.rs:689-712 | In every reachable state the call refuses: without a schedule nothing is reserved |
| `DcaRoundTrip.CreationReservesAndPlans` | pallets/dca/src/lib.rs:506-609 | An accepted schedule moves its budget from free to reserve without going below the lock and waits for a block with room, at least two ahead, not before the requested start and within 2036 blocks of the rounded-up one |
| `DcaRoundTrip.FirstBlockIsAhead` | pallets/dca/src/lib.rs:731-752 | The first block is two ahead, or the requested start rounded up to a multiple of five |
| `DcaRoundTrip.CreateThenTerminate` | pallets/dca/src/lib.rs:506-671 | Creating and terminating restores every map, list and balance |
| `DcaAttempt.AttemptSettles` | pallets/dca/src/lib.rs:141-225 | One execution attempt, whatever it meets, leaves the schedule replanned or removed, the invariant intact and every other schedule untouched |
| `DcaAttempt.BlockKeeps` | pallets/dca/src/lib.rs:141-225 | A whole block, in any shuffle, keeps the invariant and leaves nothing pending |
| `DcaTheorems.ReserveIsSumOfBudgets` | pallets/dca/src/lib.rs:1039-1073 | On every run the DCA reserve of each owner and asset is the sum of the remaining budgets of its live schedules |
| `DcaTheorems.BudgetIsConserved` | pallets/dca/src/lib.rs:796-900 | On every run sold + drawn for fees + remaining = total for a live fixed budget, and reserve = sold + drawn + refunded once it has ended; what is paid never exceeds what is drawn; a rolling schedule keeps its whole reserve |
| `DcaMoney.AttemptAccounts` | pallets/dca/src/lib.rs:141-225 | Whatever an attempt meets, the owner's total in the sold asset falls by exactly what the record adds as sold and paid, and beside it only the bought asset's and the fee receiver's accounts change, if the owner is not the fee receiver and the assets differ |
| `DcaMoney.FeeLeavesOwner` | pallets/dca/src/lib.rs:1076-1123 | Paid is at most drawn, and equal exactly without a swap or when the swap takes it all; the surplus is in the owner's free balance and a direct fee at the treasury |
| `DcaTheorems.EndReturnsBudget` | pallets/dca/src/lib.rs:1125-1166 | Ending moves exactly the remaining budget back to free balance and touches no other balance |
| `DcaTheorems.PlannedExactlyOnce` | pallets/dca/src/lib.rs:1175-1201 | Each live schedule stands at exactly one place of one list, that of its own future block; lists hold only live ids and respect the limit |
| `DcaTheorems.EachDueAttemptedOnce` | pallets/dca/src/lib.rs:141-225 | In any shuffle the due schedules, and no others, are attempted exactly once |
| `DcaProbing.PlanningProbes` | pallets/dca/src/lib.rs:1203-1223 | Planning tries eleven blocks, the requested one first and each 2^i to 2^(i+1) - 1 after the one before, takes the first with room, and gives up exactly if all are full |
| `DcaProbing.EveryProbingIsDrawn` | pallets/dca/src/lib.rs:1203-1223 | Every such sequence of blocks is tried for some random draws |
| `DcaInvariant.FreeBlockIsNear` | pallets/dca/src/lib.rs:1203-1223 | A plan lands in a block with room, at most 2036 blocks after the requested one, and in that one if it has room |
| `DcaTheorems.RetriesBackOff` | pallets/dca/src/lib.rs:953-984 | On every run, after k failures in a row the planned block is first failure + 20 * (2^k - 1) + slack, with slack at most 2036 per displaced retry and 2037 per bump since, and zero exactly if there was neither |
| `DcaTheorems.RetrySurvivesIff` | pallets/dca/src/lib.rs:953-984 | A retriable failure leaves the schedule alive exactly if retries are left, the block fits u32 and a free block is found |
| `DcaTurns.SurvivorWaits` | pallets/dca/src/lib.rs:141-225 | A schedule that survives an attempt waits for the first free block from the next one after a bump, a period ahead after a sale, and the backoff distance ahead after any failure; a sale clears the failure count, a failure adds one, and extra gas grows by a million over the retries, capped, exactly if the attempt ran out of gas |
| `DcaTurns.AttemptAdds` | pallets/dca/src/lib.rs:754-900 | The record and the bought asset's account grow by the fee exactly if it was charged and by the trade exactly if it was charged, the price was stable and the trade went through |
| `DcaTurns.UnstablePriceStopsTrade` | pallets/dca/src/lib.rs:781-790 | With the fee paid and an unstable price nothing is sold or bought; a survivor has one failure more and waits for the backoff block |
| `DcaVerdicts.AttemptVerdict` | pallets/dca/src/lib.rs:902-951 | An attempt completes a schedule exactly if it sold and the rest is not worth another round, or if a rolling schedule's owner ran out of funds; any other removal terminates it |
| `DcaVerdicts.FeeIsChargedIff` | pallets/dca/src/lib.rs:1076-1123 | A fee is charged exactly if priced, covered by the budget, charged without failure and spendable; it runs out of gas exactly if it got that far |
| `DcaVerdicts.TradeIsExecutedIff` | pallets/dca/src/lib.rs:796-900 | A trade is executed exactly if its amount is known, covered, does not fail and is spendable, at the remaining or quoted amount; the error names the first that failed |
| `DcaOutcomes.FailureSurvivesIff` | pallets/dca/src/lib.rs:192-218 | A failed trade leaves the schedule alive exactly if funds or anything unforeseen were not the reason and a retry can be planned |
| `DcaOutcomes.SuccessSurvivesIff` | pallets/dca/src/lib.rs:902-951 | A successful one goes on exactly if the rest of the budget is worth another round and a block a period later is found |
| `DcaOutcomes.PartialSellIsTheLast` | pallets/dca/src/lib.rs:796-951 | A sell order sells the smaller of its amount and the rest; a partial sale empties the budget and is the last |
| `DcaEndings.SecondRoundIsFunded` | pallets/dca/src/lib.rs:506-571 | On every run a live schedule was admissible at some prices, and a fixed budget that has drawn at most one round at such prices still has another round, in its reserve |
| `DcaEndings.CompletedIsExhausted` | pallets/dca/src/lib.rs:902-951 | An attempt that completes a fixed-budget schedule refunds less than another round is worth |
| `DcaWitness.FirstFailureMayEnd` | pallets/dca/src/lib.rs:953-984 | A complete run in which a schedule allowing 255 retries is removed on its first failure |
| `DcaTheorems.RetryCeiling` | pallets/dca/src/lib.rs:953-984 | No schedule ever has more than 27 retries in a row, whatever its limit |
| `DcaTheorems.LargeRetryLimitIsCut` | pallets/dca/src/lib.rs:953-984 | After 27 failures the next one removes the schedule for every limit |
| `DcaEndings.FixedBudgetIsFinite` | pallets/dca/src/lib.rs:902-951 | On every run with fees above zero, and for sell orders whatever the fees, a live fixed budget B with r retries has had no idle attempt and at most B * (r + 1) + r unbumped ones |
| `DcaTheorems.FixedBudgetEnds` | pallets/dca/src/lib.rs:902-951 | For any inputs the unbumped attempts are at most (B + idle) * (r + 1) + r |
| `DcaTheorems.IdleAttemptChangesNoBudget` | pallets/dca/src/lib.rs:902-951 | For an input without fee and price an attempt leaves the budget whole and is planned again, so idle attempts have to be counted |
| `DcaTermination.AttemptLowers` | pallets/dca/src/lib.rs:141-225 | No attempt raises the measure: charges and trades lower the budget, failed fee payments use up retries |
| `DcaTheorems.ExtraGasOverRuns` | pallets/dca/src/lib.rs:1344-1359 | Along a run extra gas never decreases while the schedule lives, stays within the cap and is gone with it; the gas lent to the dispatcher is back to zero in every state |
| `DcaAttemptLaws.GasIsLent` | pallets/dca/src/lib.rs:796-802 | While a fee or trade runs the dispatcher holds the schedule's extra gas; success clears it and a failure leaves it to the rollback |
| `DcaAttemptLaws.AttemptGas` | pallets/dca/src/lib.rs:1344-1359 | One attempt adds at most one increment to the extra gas |
| `DcaTheorems.PalletKeepsLocksCovered` | integration-tests/src/dca.rs:6231-6633 | Nothing the pallet does takes an account's total below its lock |
| `DcaPallet.Pallet.FindNextFreeBlock` | pallets/dca/src/lib.rs:1203-1223 | The probing loop computes the specified free block |
| `DcaPallet.Pallet.PlanScheduleForBlock` | pallets/dca/src/lib.rs:1175-1201 | The list and the execution block are updated together, or nothing is |
| `DcaPallet.Pallet.RetrySchedule` | pallets/dca/src/lib.rs:953-984 | Does the specified retry; refused, it leaves at most its own counter changed |
| `DcaPallet.Pallet.UnallocateAmount` | pallets/dca/src/lib.rs:1039-1073 | Lowers budget and reserve by the amount, or changes nothing |
| `DcaPallet.Pallet.Charge` | pallets/dca/src/lib.rs:1076-1123 | Lends the gas, draws, pays and clears as specified, step by step |
| `DcaPallet.Pallet.TakeTransactionFee` | pallets/dca/src/lib.rs:1076-1123 | Charges the fee as specified and rolls back on every failure |
| `DcaPallet.Pallet.SettleTrade` | pallets/dca/src/lib.rs:796-900 | Draws, trades and clears the gas as specified, step by step |
| `DcaPallet.Pallet.Execute` | pallets/dca/src/lib.rs:796-900 | Trades with the gas lent, at the quoted or remaining amount, and rolls back on every failure, a failed quote included |
| `DcaPallet.Pallet.EndSchedule` | pallets/dca/src/lib.rs:1125-1166 | Refunds and forgets the schedule as specified |
| `DcaPallet.Pallet.IncrementExtraGas` | pallets/dca/src/lib.rs:1344-1359 | Raises the extra gas as specified |
| `DcaPallet.Pallet.ReplanOrComplete` | pallets/dca/src/lib.rs:902-951 | Completes, terminates or plans the next period as specified |
| `DcaPallet.Pallet.ExecuteSchedule` | pallets/dca/src/lib.rs:158-222 | One turn of the block loop is the specified attempt |
| `DcaPallet.Pallet.OnNewBlock` | pallets/dca/src/lib.rs:141-225 | The block loop is the specified sequence of attempts |
| `DcaPallet.Pallet.ScheduleOrder` | pallets/dca/src/lib.rs:506-609 | Creates as specified; every refusal leaves storage unchanged |
| `DcaPallet.Pallet.TerminateOrder` | pallets/dca/src/lib.rs:625-671 | Terminates as specified; every refusal leaves storage unchanged |
| `DcaPallet.Pallet.UnlockReserves` | pallets/dca/src/lib.rs:689-712 | Unlocks as specified; every refusal leaves storage unchanged |
| `FuseLaws.RunConserves` | integration-tests/src/deposit_limiter.rs:375-415 | On every run the free and reserved balances of all accounts add up to the issuance |
| `FuseLaws.DepositSplits` | pallets/circuit-breaker/src/fuses/issuance.rs:96-173 | A deposit fails exactly on overflow or when an exempt account would be locked; otherwise it credits up to the headroom, reserves the rest, and locks the asset exactly when it went over |
| `FuseLaws.StepKeeps` | pallets/circuit-breaker/src/fuses/issuance.rs:96-173 | Every action keeps conservation and an open period within its limit |
| `FuseRate.FreedWithinPeriods` | integration-tests/src/deposit_limiter.rs:18-63 | On every run, governance calls included, deposits add to free balances at most what the open period allowed, what was burnt, and one limit per period opened |
| `FuseRate.ResetsAreSpaced` | pallets/circuit-breaker/src/fuses/issuance.rs:77-94 | Without governance calls the openings of two periods are at least a period apart |
| `FuseRate.RateLimit` | integration-tests/src/deposit_limiter.rs:512-580 | Over every run without governance calls that ends before the last block number, free balances gain at most limit * (elapsed / period + 1), plus the open room and what was burnt |
| `FuseRate.LastBlockIsUnlimited` | pallets/circuit-breaker/src/fuses/issuance.rs:77-94 | In the last block number every deposit of a limit is freed and opens a new period |
| `FuseRetune.FreedWhileRetuned` | pallets/circuit-breaker/src/fuses/issuance.rs:48-75 | With the limit changed at will between steps, deposits free at most the open room, what was burnt, the limits in force at each opening, and what the limit was raised by in open periods |
| `FuseRetune.RetunedRateLimit` | pallets/circuit-breaker/src/fuses/issuance.rs:48-75 | The same by time: the highest limit per started period, plus room, burns and raises |
| `FuseRate.RateIsReached` | integration-tests/src/deposit_limiter.rs:120-153 | Some run frees exactly that much |
| `FuseFronts.PartsGainNothing` | integration-tests/src/deposit_limiter.rs:120-153 | Deposits spread over the blocks of a period, or of the lockdown they run into, succeed exactly when one deposit of their sum does, and leave every account the same free and reserved funds |
| `FuseFronts.BlockDepositsAddUp` | integration-tests/src/deposit_limiter.rs:41-63 | Within one block two deposits succeed exactly when their sum does and leave the same state, lockdown included |
| `FuseFronts.MintIffWhollyFree` | runtime/hydradx/src/evm/precompiles/multicurrency.rs:346-380 | A mint goes through exactly when the minter calls, a deposit would be credited in full, and neither stricter corner applies; it then is that deposit |
| `FuseFronts.GateBelowBaseline` | pallets/circuit-breaker/src/fuses/issuance.rs:31-46 | An open period below its baseline whose gate refuses what a deposit would credit in full |
| `FuseFronts.ZeroMintInLockdown` | pallets/circuit-breaker/src/fuses/issuance.rs:31-46 | In every lockdown the gate refuses a mint of zero, which a deposit would accept |
| `FuseFronts.ZeroMintInstance` | pallets/circuit-breaker/src/fuses/issuance.rs:31-46 | A state of that kind |
| `FuseFronts.AcceptedMintStaysOpen` | integration-tests/src/evm.rs:2322-2359 | An accepted mint reserves nothing, leaves a period open, and keeps issuance within baseline + limit |
| `FuseFronts.BudgetIsWhatCanBeMinted` | pallets/circuit-breaker/src/fuses/issuance.rs:31-46 | The gate admits exactly the amounts up to the mint budget |
| `FuseFronts.BurnRestoresBudget` | integration-tests/src/evm.rs:2322-2359 | A burn gives back mint budget up to the limit, all of it exactly when issuance stays at or above the baseline; deposit headroom always grows by the whole amount |
| `FuseFronts.MintThenBurn` | integration-tests/src/evm.rs:2322-2359 | Minting and burning the same amount restores issuance and balances |
| `FuseFronts.NothingLeavesALockdown` | integration-tests/src/deposit_limiter.rs:176-241 | As long as governance neither lifts nor shortens a lockdown, no deposit is freed before its end, no reserve shrinks and no release succeeds, on every run |
| `FuseFronts.ReservedComesBack` | integration-tests/src/deposit_limiter.rs:273-301 | What a deposit reserved is released in full exactly from the expiry block on, with everything reserved before, and only once |
| `FuseRelease.ReleaseIff` | pallets/circuit-breaker/src/lib.rs:614-640 | In every state a release succeeds exactly if no lockdown runs and something is reserved; it then frees the whole reserve and changes nothing else |
| `FuseRelease.ReserveWaits` | integration-tests/src/deposit_limiter.rs:375-415 | Over every run without a release for the account its reserve never falls, and one release frees all of it exactly if no lockdown runs then |
| `FuseRelease.ReservedChanges` | pallets/circuit-breaker/src/lib.rs:614-640 | A reserve falls only by its own release, to zero and outside a lockdown, and rises only by deposits to it |
| `FuseRelease.LiftedThenReleased` | integration-tests/src/deposit_limiter.rs:438-502 | A lifted lockdown leaves a whole new limit, and everything reserved can be released at once |
| `FuseRelease.LiftIff` | pallets/circuit-breaker/src/lib.rs:584-597 | Only a locked asset can be lifted |
| `FuseRelease.NewPeriodThenReleased` | integration-tests/src/deposit_limiter.rs:438-502 | After a lockdown, a deposit by anyone that opens a new period leaves earlier reserves releasable in full |
| `FuseRelease.TransferMoves` | integration-tests/src/deposit_limiter.rs:668-688 | A transfer takes from its sender and gives to its receiver, or fails for want of funds |
| `FuseRelease.BurnTakesFromMinter` | runtime/hydradx/src/evm/precompiles/multicurrency.rs:382-433 | A burn succeeds exactly for the minter with the funds, out of the minter's own balance and the issuance |
| `FuseRelease.UnlimitedDeposit` | pallets/circuit-breaker/src/fuses/issuance.rs:48-58 | Without a limit or a period deposits and mints fail on overflow only and leave the fuse alone |
| `FuseFronts.LoweredLimit` | pallets/circuit-breaker/src/fuses/issuance.rs:146-163 | After the limit was lowered, exactly when a deposit reserves more than itself and when it still goes through |
| `FuseFronts.LoweredLimitInstance` | pallets/circuit-breaker/src/fuses/issuance.rs:146-163 | A state within the old limit where a deposit of 1 reserves 6, or fails for an account that cannot pay |
| `FusePallet.IssuanceFuse.OnDeposited` | pallets/circuit-breaker/src/fuses/issuance.rs:96-173 | The hook updates storage as specified |
| `FusePallet.IssuanceFuse.LockDeposit` | pallets/circuit-breaker/src/lib.rs:1080-1091 | Reserves as specified and refuses exempt accounts |
| `FusePallet.IssuanceFuse.DoDeposit` | runtime/hydradx/src/assets.rs:125-151 | Credits, then asks the fuse; a refusal undoes the credit |
| `FusePallet.IssuanceFuse.MayMint` | pallets/circuit-breaker/src/fuses/issuance.rs:31-46 | Answers the specified gate |
| `FusePallet.IssuanceFuse.DoMint` | runtime/hydradx/src/evm/precompiles/multicurrency.rs:346-380 | Mints as specified; a refusal changes nothing |
| `FusePallet.IssuanceFuse.DoBurn` | runtime/hydradx/src/evm/precompiles/multicurrency.rs:382-422 | Burns as specified; a refusal changes nothing |
| `FusePallet.IssuanceFuse.ReleaseDeposit` | pallets/circuit-breaker/src/lib.rs:614-640 | Releases as specified; a refusal changes nothing |
| `FusePallet.IssuanceFuse.ForceLiftLockdown` | pallets/circuit-breaker/src/lib.rs:584-597 | Lifts as specified; refuses an asset that is not locked |
| `PermitLaws.CallKeeps` | pallets/transaction-multi-payment/src/lib.rs:469-524 | Every call, with everything nested in it, restores the override, never pauses, undoes no earlier commit, only moves money to the collector, and keeps nonces equal to the commits made |
| `PermitLaws.DispatchKeeps` | runtime/hydradx/src/evm/permit.rs:85-166 | The same for a dispatch, which ends the commits with its own unless the runner refuses |
| `PermitTheorems.OverrideIsRestored` | integration-tests/src/evm_permit.rs:3390-3524 | For arbitrarily nested calls the override afterwards is the override before, on success, refusal and revert |
| `PermitTheorems.PayerIsRefunded` | runtime/hydradx/src/evm/evm_fee.rs:182-323 | The override, or else the source, is charged and gets the refund whatever ran in between; its cost is what was used, at most the fee |
| `PermitTheorems.RevertCosts` | runtime/hydradx/src/evm/evm_fee.rs:182-323 | A run that reverts costs its payer what it used and nobody else anything |
| `PermitTheorems.ScopePaysForRevert` | pallets/dispatcher/src/lib.rs:391-417 | A call under another fee payer costs that payer, not the source |
| `PermitTheorems.UnsignedPaysItself` | pallets/transaction-multi-payment/src/lib.rs:423-467 | Without an override the permit's own account pays |
| `PermitTheorems.SponsorPaysForRevert` | pallets/transaction-multi-payment/src/lib.rs:469-524 | A sponsored run that reverts costs the sponsor the fee used and nobody else anything |
| `PermitTheorems.SignedCommitsIff` | integration-tests/src/evm_permit.rs:3595-3704 | A signed dispatch commits exactly when not paused, genuine, in time, for the current nonce and taken by the runner; refused, it changes nothing; nonces grow by the commits made |
| `PermitSoundness.PrecompiledCommitsIff` | precompiles/call-permit/src/lib.rs:131-225 | The precompile commits exactly an affordable, genuine, timely permit for the current nonce whose call does not revert |
| `PermitSoundness.DishonouredChangesNothing` | runtime/hydradx/src/evm/permit.rs:37-83 | A forged, late or wrongly numbered permit changes nothing on any path, except that the unsigned one pauses the call |
| `PermitSoundness.CommitsAreDeserved` | runtime/hydradx/src/evm/permit.rs:37-83 | Whatever is submitted, with everything nested in it, every commit it adds is genuine, was in time and bears the nonce that stood when its dispatch began |
| `PermitSoundness.RunCommitsAreGenuine` | runtime/hydradx/src/evm/permit.rs:37-83 | Over every run every commit is of a permit its account signed |
| `PermitSoundness.CallsRunInOrder` | runtime/hydradx/src/evm/permit.rs:104-123 | Nested calls run in order, each in the world the ones before it left |
| `PermitSoundness.InnermostPayerCounts` | pallets/dispatcher/src/lib.rs:391-417 | A fee-payer scope around a sponsored dispatch or another scope makes no difference |
| `PermitSoundness.TransferMoves` | runtime/hydradx/src/evm/precompiles/multicurrency.rs:218-246 | A transfer inside a run takes from its sender and gives to its receiver |
| `PermitTheorems.NonceAdvancesByOne` | integration-tests/src/evm_permit.rs:1918-2010 | Success and inner revert alike: unless a permit of the same signer is dispatched inside, the signer's nonce advances by exactly one; every other nonce advances by its account's commits |
| `PermitTheorems.RunKeeps` | integration-tests/src/evm_permit.rs:3755-3822 | Over every run of submissions the override is as before, commits are never undone, nonces count them, money is conserved |
| `PermitTheorems.CommitsOnce` | integration-tests/src/evm_permit.rs:3755-3822 | On every interleaving by anyone a permit, and any permit of one account for one nonce, commits at most once, provided no signed or unsigned dispatch of it has it again inside its own run; all other nesting is allowed |
| `PermitTheorems.SameNonceIsNested` | integration-tests/src/evm_permit.rs:3755-3822 | On every run, of two commits for one nonce of one account the later dispatch ran around the earlier |
| `PermitTheorems.NestedDispatchCommitsToo` | runtime/hydradx/src/evm/permit.rs:104-141 | In every unpaused state with a valid permit, a dispatch the runner takes that dispatches the permit again inside commits it twice |
| `PermitTheorems.EnclosedDispatchCommitsToo` | runtime/hydradx/src/evm/permit.rs:104-141 | A run in which a permit commits twice |
| `PermitTheorems.PausesIff` | integration-tests/src/evm_permit.rs:2110-2435 | Only an unsigned submission with an invalid permit or a runner error, or the authority, pauses the call |
| `PermitTheorems.ValidationLeavesNoTrace` | pallets/transaction-multi-payment/src/lib.rs:533-617 | Pre-validation changes neither storage nor the override |
| `PermitTheorems.AcceptedIffCommitsWell` | pallets/transaction-multi-payment/src/lib.rs:533-617 | From an unpaused state pre-validation accepts exactly what the dispatch commits without revert or moved account nonce |
| `PermitTheorems.AcceptedCommits` | integration-tests/src/evm_permit.rs:381-582 | What is accepted commits and does not pause, exactly when the call was not paused |
| `PermitPallet.Runtime.CallRunner` | runtime/hydradx/src/evm/permit.rs:104-137 | Charge, run, roll back on revert and refund as specified; refused, nothing happened |
| `PermitPallet.Runtime.DispatchPermit` | runtime/hydradx/src/evm/permit.rs:85-166 | Runs and takes the nonce as specified |
| `PermitPallet.Runtime.RunSigned` | pallets/transaction-multi-payment/src/lib.rs:469-524 | The signed path as specified, with the override saved and restored on every path |
| `PermitPallet.Runtime.RunUnsigned` | pallets/transaction-multi-payment/src/lib.rs:423-467 | The unsigned path as specified, with its auto-pause |
| `PermitPallet.Runtime.RunPrecompiled` | precompiles/call-permit/src/lib.rs:131-225 | The precompile path as specified: nonce first, all undone on revert |
| `PermitPallet.Runtime.RunScope` | pallets/dispatcher/src/lib.rs:391-417 | A call under another fee payer as specified |
| `PermitPallet.Runtime.Validate` | pallets/transaction-multi-payment/src/lib.rs:533-617 | The rolled-back dry run as specified |
| `PermitPallet.Runtime.RunAll` | runtime/hydradx/src/evm/permit.rs:104-123 | Nested calls run one after the other as specified |
| `PermitPallet.Runtime.WithdrawFee` | runtime/hydradx/src/evm/evm_fee.rs:182-251 | Charges the override if set and the source otherwise, or nothing |
| `PermitPallet.Runtime.RefundFee` | runtime/hydradx/src/evm/evm_fee.rs:271-323 | Refunds the payer of the moment and collects the rest |
| `Allowance.SpendMoves` | runtime/hydradx/src/evm/precompiles/multicurrency.rs:289-344 | A transferFrom succeeds exactly if the owner has the amount and the spender is approved or allowed it; it takes from the owner, gives to the receiver, and lowers only the grant it used |
| `Allowance.TransferMoves` | runtime/hydradx/src/evm/precompiles/multicurrency.rs:218-246 | A plain transfer moves the caller's own balance and touches no grant |
| `Allowance.SpentPlusLeftIsGranted` | integration-tests/src/evm.rs:1487-1718 | On every run, what the owner's balance lost to the spender since the last approval plus the remaining allowance equals the approved amount exactly unless the grant is the u128 maximum and was drawn on; approved contracts see the maximum |
| `Allowance.RunConserves` | runtime/hydradx/src/evm/precompiles/multicurrency.rs:289-344 | Transfers on allowance only move balances |
| `Allowance.CurrencyPrecompile.DoTransferFrom` | runtime/hydradx/src/evm/precompiles/multicurrency.rs:289-344 | Takes allowance and balance together; a failed transfer gives the allowance back |
| `Allowance.CurrencyPrecompile.SetAllowance` | pallets/evm-accounts/src/lib.rs:650-656 | Stores a grant, zero as absence |

## Left out

- Prices, oracle stability, slippage limits and routing arithmetic of DCA trades are inputs; so are the fee amounts and the outcome of every trade.
- Random generators are inputs; nothing is proved about how likely a bump or a full block is, so bumps are counted but not bounded.
- Existential deposits, dust and account reaping: every balance may be any natural number.
- Weights, block weight limits and the fee simulator.
- Balance changes outside the DCA pallet between its steps are unrestricted in free, otherwise reserved and frozen amounts, but never touch the DCA reserve itself.
- The DCA migration code and the deprecated storage it moves.
- PermitTheorems.CommitsOnce: its condition on the submissions is sufficient, not necessary, because whether a permit nested in itself commits depends on what the EVM runner and the permits between decide; direct nesting that the runner takes always does (`NestedDispatchCommitsToo`).
- An asset whose rate limit is removed altogether during a run: the bounds are for runs with some limit at every step.
- The global withdraw limiter and the per-block trade and liquidity limits of the circuit breaker.
- EVM execution, gas metering and the runner itself are not part of this model; a run is a record of what it decided and of the calls it made.
- The swap of the fee currency and its conversion price; the fee is an amount in one currency, and the temporary currency override of the unsigned path is not modelled.
- Signature recovery and hashing: a permit is genuine or not, for the one nonce it was signed with.
- The allowance of one asset only; ERC-20 logs, names, decimals and address encodings.
- DcaPallet.Pallet.OnNewBlock: the shuffle itself is a parameter; the theorems hold for every permutation of the due list.
- Pool mathematics, dynamic fees, XCM, bonds, staking, referrals and all other pallets.
