# Percolator LP vault: a verified model

A Dafny model of the Percolator LP vault program and proofs about it. A vault is one
pool account, an unbounded set of deposit records, the vault's real token balance, the
LP tokens held by users, and a clock. An insurance pool (mode 0) flushes idle collateral
to the wrapper's insurance fund and gets it back later; a trading pool (mode 1) earns
fees that arrive as plain token transfers and are booked by a permissionless crank.

Everything is stated over full u64 values, every user, and every finite run of steps.

## How it is built

- `Machine`, `Rounding`: fixed-width integers with the checked, saturating and
  truncating operations the program uses; facts about floors and products.
- `VaultMath`: the pure formulas of `src/math.rs`. `ShareLaws` and `CooldownLaws` say
  what they mean over the integers.
- `Reserved`: the 64 packed bytes, the record they encode, and the refinement between
  the two.
- `PoolState`, `VaultMachine`: the pool value and the state machine. `Apply` is one
  instruction or one event of the outside world, `Next` is the atomic transaction
  (a rejected step changes nothing), `Run` is a list of them, and `Reachable` means
  obtained by some run from zeroed accounts.
- `StakePoolAccount`, `Processor`: the same program in its own imperative form, with a
  byte array, fields written one by one, early returns after earlier writes, and a
  rollback around each transaction. `Vault.ExecuteAll` and `Replay` prove that it
  refines `Run`, so every theorem below holds of it.
- `Invariant`: what every reachable state satisfies. `Effects`: when each instruction is
  accepted, the whole state it leaves and the error of each refusal. `History`: the
  account as a function of the accepted instructions. `Solvency`, `Fairness`, `FullExit`,
  `Drawdown`, `CooldownRuns`, `Orphans`, `Resolution`: the theorems. `Witnesses`: runs
  that reach the states where an expected promise fails.

## Conventions

- `NetValue` is the pool value over the integers. `InRange` says that the lifetime
  counters that add value still fit in u64. It is implied by "deposited + returned +
  donated is at most u64::MAX over the pool's life" (`ValueIsExact`), and most invariants
  do not even need it. `OutOfRangeFreezes`, `OutOfRangeDepositIsLocked` and
  `OrphanBlocksMintIff` say what happens without it, and `FreezeIsReachable` builds a run
  that leaves the range. It is not always sufficient: the crank also needs the donations
  it books to fit the fee counter (`CrankAcceptedIff`, `CrankCanOverflow`).
- Token transfers and calls into the wrapper move exactly the amount or fail; whether a
  user's wallet is funded and whether a foreign call succeeds are inputs of the step. A
  transfer out of the vault fails (`VaultShort`) if the balance is short.
- The admin check is a boolean on the step. A deposit record is a map entry keyed by the
  user. LP may be minted to any account, since the program does not check whose it is.
- `donated` counts tokens sent straight to the vault; the program never sees it.
- Flag tests and updates on byte 9 (`&`, `|`, `& !`) are written as arithmetic on the
  weights 1 and 2.

## Where code and documentation differ

- `README.md:103` calls a deposit followed by a withdrawal lossless. It is not:
  `RoundTripCanLose` gives a run, `RoundTripLossBounds` bounds the loss on both sides, and
  `RoundTripLosslessIff` and, on the whole vault, `VaultRoundTrip` say exactly when nothing
  is lost.
- `src/state.rs:305` says the pool value equals the vault balance. `ValueCanMissVault`
  reaches a state of either mode where it does not. The reported value is the vault balance
  exactly when the counters are in range and, in an insurance pool, nothing was sent to the
  vault directly (`InsuranceSolvency`); in a trading pool, everything sent is booked as fees
  (`FeeLedger`), which after a crank means that the zero-supply offset is zero
  (`CrankBooksOnce`). `LockedDepositIsReachable` and `FreezeIsReachable` reach states where
  only the range is missing.
- The mark is meant to be the epoch's highest value (`src/state.rs:255`). Cranks and
  insurance returns do not record theirs, and two kinds of step can then lose an unrecorded
  peak: a flush, and a withdrawal made while the guard is switched off. `MarkFollowsIff`
  says exactly when one step does, `MarkFollowsPeakIff` when the mark follows the peak
  through a whole run in one epoch, and `GuardedRecords` that it does while the guard stays
  on and nothing is flushed. `FlushHidesPeak` and `ToggleHidesPeak` give a run of each kind.

## Model

| member | source | states |
|---|---|---|
| VaultMath.MintMeaning | src/math.rs:20-49 | with positive supply and value the u128 product never overflows and the mint is floor(amount * supply / value), refused only above u64::MAX |
| VaultMath.BurnMeaning | src/math.rs:65-81 | with positive supply the burn pays floor(lp * value / supply), refused only above u64::MAX |
| VaultMath.HwmFloorMeaning | src/math.rs:622-631 | for any real basis-point value the floor is defined, is floor(mark * bps / 10000), and does not exceed the mark |
| ShareLaws.MintKeepsPrice | src/math.rs:38-47 | a mint never lowers value per LP |
| ShareLaws.BurnKeepsPrice | src/math.rs:73-80 | a burn within the supply never lowers value per LP, never pays more than the value, and burning all LP pays exactly the value |
| ShareLaws.BurnKeepsCover | src/math.rs:73-80 | in a pool worth at least one unit per LP a burn pays at least its LP count and leaves at least one unit per remaining LP |
| ShareLaws.RoundTripLossBounds | src/math.rs:20-81 | deposit then burn returns at most the amount, and loses less than one unit plus the price of one LP |
| ShareLaws.RoundTripLosslessIff | src/math.rs:20-81 | the round trip is lossless if and only if the value is zero (the first deposit) or divides amount * supply |
| Fairness.VaultRoundTrip | src/processor.rs:484-800 | on any reachable vault a deposit and the withdrawal of what it minted never gain, and lose nothing if and only if the pool was worth zero or its value divides amount * supply |
| Witnesses.RoundTripCanLose | src/processor.rs:484-800 | a reachable vault where such a round trip loses one unit |
| ShareLaws.NoListBeatsOneOperation | src/math.rs:20-81 | any interleaving of mints and burns that burns net k pays net at most floor(k * value / supply), and one that mints net m costs at least m at the start price |
| ShareLaws.SplitBurnNeverGains | src/math.rs:65-81 | burning in any list of pieces pays no more than one burn of the sum, which is always defined |
| ShareLaws.SplitDepositNeverGains | src/math.rs:20-49 | depositing in any list of pieces mints no more than one deposit of the sum, where that is defined |
| CooldownLaws.BlendIsWeightedAverage | src/math.rs:200-218 | for all u64 inputs with positive total LP the offset form equals the floor of the plain weighted average, lies between the two slots, and neither the cast nor the saturating addition clips |
| CooldownLaws.CooldownClosedForm | src/math.rs:193-236 | the slot after a top-up is current - min(ceil(old LP * age / total), floor(old LP * cooldown / total)) |
| CooldownLaws.TopUpWaitsItsShare | src/math.rs:193-236 | any top-up keeps the slot between its old value and now, and waits at least ceil(new LP * cooldown / total) |
| CooldownLaws.UnlockedTopUpWaitsExactly | src/math.rs:193-236 | a position that was already unlocked waits exactly ceil(new LP * cooldown / total) more slots |
| Reserved.SetterRefines | src/state.rs:184-287 | each setter on the bytes changes its own decoded field and no other |
| Reserved.BytesRefineRecord | src/state.rs:184-287 | over any sequence of setters the bytes behave as a record of independent fields |
| Reserved.ResolvedSurvivesSetters | src/state.rs:219-241 | no sequence of setters clears the resolved flag once set |
| StakePoolAccount.StakePool.SetDiscriminator | src/state.rs:184-187 | in place: tag and version are set, the rest of the header is unchanged |
| StakePoolAccount.StakePool.SetResolved | src/state.rs:225-227 | in place: only the resolved flag is set |
| StakePoolAccount.StakePool.SetHwmEnabled | src/state.rs:235-241 | in place: only the HWM flag changes, to the given value |
| StakePoolAccount.StakePool.SetHwmFloorBps | src/state.rs:249-253 | in place: only the floor changes, to the given value |
| StakePoolAccount.StakePool.SetEpochHighWaterTvl | src/state.rs:261-263 | in place: only the mark changes, to the given value |
| StakePoolAccount.StakePool.SetHwmLastEpoch | src/state.rs:271-273 | in place: only the epoch changes, to the given value |
| StakePoolAccount.StakePool.SetPreSupplyVaultOffset | src/state.rs:285-287 | in place: only the offset changes, to the given value |
| StakePoolAccount.StakePool.RefreshHwm | src/state.rs:293-301 | in place: the mark restarts in a new epoch and otherwise only rises; the new mark is returned |
| Processor.Vault.ProcessInitPool | src/processor.rs:263-398 | in place: the new pool state or the error of the machine's step |
| Processor.Vault.ProcessInitTradingPool | src/processor.rs:1383-1401 | in place: as above, with the mode set to trading |
| Processor.Vault.ProcessDeposit | src/processor.rs:406-620 | in place: the whole new state, or the same error, as the machine's deposit |
| Processor.Vault.ProcessWithdraw | src/processor.rs:626-808 | in place: the whole new state, or the same error, as the machine's withdrawal |
| Processor.Vault.ProcessFlushToInsurance | src/processor.rs:814-924 | in place: the whole new state, or the same error, as the machine's flush |
| Processor.Vault.ProcessAdminWithdrawInsurance | src/processor.rs:1165-1243 | in place: the whole new state, or the same error, as the machine's insurance return |
| Processor.Vault.ProcessAccrueFees | src/processor.rs:1298-1379 | in place: the whole new state, or the same error, as the machine's crank |
| Processor.Vault.ProcessUpdateConfig | src/processor.rs:930-964 | in place: only the given settings change |
| Processor.Vault.ProcessAdminSetHwmConfig | src/processor.rs:1407-1454 | in place: flag and floor as the machine sets them, although the flag is written before the floor is validated |
| Processor.Vault.ProcessAdminResolveMarket | src/processor.rs:1137-1159 | in place: only the resolved flag is set |
| Processor.Vault.Execute | src/processor.rs:34-93 | one transaction: the machine's next state, with every account restored when the handler fails |
| Processor.Vault.ExecuteAll | src/processor.rs:34-93 | any list of transactions ends in the state the machine's run gives |
| Processor.Replay | src/processor.rs:34-93 | every execution from zeroed accounts ends in a reachable state and satisfies the invariant |
| Invariant.RunKeeps | src/processor.rs:34-93 | every run keeps the record sums, the vault balance, the separation of modes, cover of trading pools, slots not after the clock, and a sound header |
| Effects.InitOutcome | src/processor.rs:376-393 | an accepted initialisation stores the given cooldown and cap, sets tag and version, and leaves mode 0 or 1 and every counter and header field zero; nothing outside the pool changes |
| Effects.InitRefusals | src/processor.rs:263-398 | initialisation is accepted if and only if the pool is not initialised and the call succeeds, with the error of each other case |
| Effects.DepositOutcome | src/processor.rs:484-620 | an accepted deposit adds its amount to the vault and the counter and floor(amount * supply / value) LP to the supply, the LP account and the record; with the guard on it stores the epoch and, in range, the higher of mark and new value, with the guard off it leaves the header alone |
| Effects.DepositSlot | src/processor.rs:601-612 | the slot after a deposit is now less the smaller of the average age, rounded up, and the old LP's share of the cooldown, rounded down |
| Effects.DepositRefusals | src/processor.rs:406-487 | a deposit fails as uninitialised, resolved, over the cap or zero if and only if it is in that very case |
| Effects.WithdrawOutcome | src/processor.rs:717-800 | an accepted withdrawal takes floor(lp * value / supply) from the vault, the LP from supply, account and record, keeps the slot, and stores the mark and the epoch with the guard on and nothing with it off |
| Effects.WithdrawRefusals | src/processor.rs:626-741 | a withdrawal fails as uninitialised, unknown, cooling down, too large or below the floor if and only if it is in that very case |
| Effects.FlushOutcome | src/processor.rs:897-917 | an accepted flush moves exactly its amount from the vault to the flushed counter and changes nothing else |
| Effects.FlushRefusals | src/processor.rs:814-888 | a flush fails by mode, by caller or for funds if and only if the pool is a trading pool, the caller is not the admin, or the amount exceeds the value |
| Effects.ReturnOutcome | src/processor.rs:1214-1236 | an accepted insurance return adds exactly its amount to the vault and the returned counter and changes nothing else |
| Effects.ReturnRefusals | src/processor.rs:1165-1243 | a return is accepted if and only if it is the admin's, on an insurance pool, the call succeeds and the sums fit; caller, mode and initialisation give their own errors |
| Effects.CrankOutcome | src/processor.rs:1336-1376 | with LP outstanding an accepted crank sets fees to all donations less the offset and changes nothing else; without LP it sets the offset to the balance, which is every donation not booked |
| Effects.CrankRefusals | src/processor.rs:1298-1362 | the error of each refused crank |
| Effects.ConfigOutcome | src/processor.rs:945-964 | a configuration is accepted if and only if it is the admin's; each given setting is stored in its own field, each missing one kept, and nothing else changes |
| Effects.GuardOutcome | src/processor.rs:1434-1447 | an accepted guard configuration stores the flag and, when enabling, the given floor, also over an enabled guard; nothing else changes |
| Effects.GuardRefusals | src/processor.rs:1407-1447 | a guard configuration is accepted if and only if it is the admin's and an enable has a floor in 1..10000, with the error of each other case |
| Effects.ResolveOutcome | src/processor.rs:1137-1159 | resolution is accepted if and only if it is the admin's and the call succeeds, and sets only the flag |
| History.RunIsHistory | src/processor.rs:34-93 | over any run each of deposited, flushed, returned and donated moves by the sum of the accepted amounts, and mode, cooldown, cap, guard, floor and resolution are the ones set last |
| History.RunPays | src/processor.rs:484-800 | over any run the withdrawn counter moves by the floored shares of the accepted withdrawals, and a position by the worth of the accepted deposits less the LP withdrawn |
| History.VaultIsHistory | src/processor.rs:34-93 | from zeroed accounts the vault balance is deposits plus returns plus donations less flushes and payouts, each summed over the accepted instructions |
| History.LastIsInForce | src/processor.rs:945-964 | a setting followed by no other of its kind is the one in force |
| Solvency.RecordConservation | src/processor.rs:536-612 | in every reachable state the records sum to the LP supply, and the mint's supply, the sum of LP held, is at most that |
| Solvency.FormulasAgree | src/state.rs:313-367 | trading pools never flush or return and their crank baseline is the pool value; insurance pools have no fees and their flush ceiling is the pool value, as partial values; in range the latter equals the saturating form |
| Solvency.ValueIsExact | src/state.rs:313-341 | the value is never negative and the checked sum reports it exactly while the counters are in range |
| Solvency.FeeLedger | src/state.rs:303-341 | in every reachable trading pool the vault covers value plus offset, fees plus offset are covered by tokens that arrived, the vault holds the value plus the donations not booked, and the reported value is the vault balance if and only if the counters are in range and fees equal donations |
| Solvency.CrankBooksOnce | src/processor.rs:1336-1376 | after a crank the vault is value plus offset, fees plus offset are all donations, the reported value is the vault balance if and only if the counters are in range and the offset is zero, and a second crank changes nothing |
| Solvency.CrankAcceptedIff | src/processor.rs:1336-1376 | in every reachable state the crank succeeds if and only if the pool is a trading pool and there is no LP, or the counters are in range and the donations less the offset fit u64 |
| Witnesses.CrankCanOverflow | src/processor.rs:1350-1362 | an in-range trading pool with LP whose crank overflows is reachable |
| Solvency.InsuranceSolvency | src/state.rs:303-341 | an insurance vault holds exactly its value plus donations, and the reported value is the vault balance if and only if the counters are in range and nothing was donated |
| Witnesses.ValueCanMissVault | src/state.rs:303-341 | in either mode a state is reachable whose reported value is zero with one token in the vault |
| Solvency.NeverShort | src/processor.rs:757-781 | in no reachable state does any step ask the vault for tokens it does not have |
| Solvency.FlushAcceptedIff | src/processor.rs:868-922 | in every reachable state a flush is accepted if and only if the pool is an insurance pool in range, it is the admin's, the call succeeds, and the amount is positive and within the value, returned insurance included |
| Solvency.TradingPoolsNeverBrick | src/math.rs:25-47 | a reachable trading pool in range has value at least supply, zero together; every deposit has a defined mint of at most its amount, every burn within supply pays at least its LP count |
| Solvency.DepositAcceptedIff | src/processor.rs:469-612 | in every reachable state of either mode a deposit is accepted if and only if it is positive, funded, within the cap, before resolution, fits the vault and the deposit counter, and mints: without LP when the value is zero or out of range, otherwise in range with at least one LP that fits the supply |
| Solvency.TradingDepositAcceptedIff | src/processor.rs:469-612 | in a trading pool the last condition is that there is no LP, or the counters are in range and the deposit is worth at least one LP |
| Solvency.OutOfRangeFreezes | src/state.rs:326-340 | once the lifetime counters leave u64, no withdrawal, flush or crank with LP outstanding succeeds in any continuation |
| Witnesses.FreezeIsReachable | src/state.rs:326-340 | such a state is reachable with an LP still outstanding, right after a crank that booked every donation |
| Solvency.OutOfRangeDepositIsLocked | src/state.rs:369-374 | out of range a deposit is accepted only by an insurance pool without LP, one LP per unit, and then no withdrawal succeeds in any continuation |
| Witnesses.LockedDepositIsReachable | src/state.rs:369-374 | an out-of-range pool that accepts a deposit is reachable, with tokens in the vault, no reported value and nothing donated |
| Fairness.RunKeepsPrice | src/processor.rs:532-800 | over any run without an accepted flush and with LP outstanding the share price never falls |
| Fairness.BystanderProtection | src/processor.rs:532-800 | in a run without an accepted flush and without an accepted deposit or withdrawal of the user, the price does not fall, the position stays and, if the run ends in range, its claim does not shrink |
| Fairness.NoRunBeatsOneOperation | src/processor.rs:484-800 | with LP outstanding throughout and no flush, crank or insurance return accepted, any run of deposits and withdrawals by any users pays net at most one burn of the net LP, and costs at least the net LP at the start price |
| FullExit.FullExitInAnyOrder | src/processor.rs:717-800 | from a reachable trading pool in range with the guard off, where every holder is unlocked and holds the LP recorded, all can leave in any order: every withdrawal is accepted, each pays at least the initial claim, together exactly the value, and the pool ends with no LP and no value, the vault keeping only donations never booked |
| Drawdown.GuardPassesIff | src/processor.rs:725-741 | in range, the guard passes a payout of at most the value if and only if what remains is at least the floor share of the highest value recorded this epoch, the current one included |
| Drawdown.WithdrawAcceptedIff | src/processor.rs:694-800 | in every reachable state of either mode a withdrawal is accepted if and only if the counters are in range, the position is unlocked and large enough, the LP is held, lp * value is at least the supply, and the remainder is at least the floor share of the mark when the guard is on |
| Drawdown.MarkFollowsIff | src/state.rs:255-301 | within an epoch a step leaves the mark at the higher of old mark and new value if and only if it is no accepted flush or guard-off withdrawal, or this epoch already recorded at least the value it lowers |
| Drawdown.MarkFollowsPeakIff | src/state.rs:255-301 | over any run in one epoch, flushes and guard-off stretches included, the mark equals the higher of starting mark and peak so far at every moment if and only if every step meets that condition |
| Drawdown.MarkIsPeak | src/state.rs:255-301 | over any such run the final mark is exactly the maximum of the starting mark and the values of all its states |
| Drawdown.GuardedRecords | src/processor.rs:725-741 | every step of a run in one epoch with the guard on and no accepted flush meets that condition |
| Drawdown.GuardEnforcesPeak | src/processor.rs:725-741 | after a run that meets the condition and starts before anything was recorded in its epoch, the enabled guard passes if and only if what remains is at least the floor share of the highest value of the run |
| Witnesses.FlushHidesPeak | src/processor.rs:725-741 | a reachable guarded run with one flush ends where a payout passes that leaves less than the floor share of the peak |
| Witnesses.ToggleHidesPeak | src/processor.rs:1434-1447 | the same without any flush, by switching the guard off around a withdrawal |
| Drawdown.BoundedDrawdown | src/processor.rs:725-741 | between any two moments of a run in one epoch with the guard on and no accepted flush, the value never falls below floor(earlier value * bps / 10000) |
| Drawdown.RunKeepsRecord | src/state.rs:293-301 | within its epoch a recorded mark is never lowered, whatever is flushed, toggled or withdrawn |
| Drawdown.DepositPinsFloor | src/processor.rs:541-546 | after a deposit under the guard no later guarded withdrawal of that epoch leaves less than the floor share of the higher of mark and value at the deposit, flushes and guard-off stretches included |
| Drawdown.FloorSurvives | src/processor.rs:1434-1447 | the configured floor survives every run that does not enable the guard anew |
| CooldownRuns.SlotNeverGoesBack | src/processor.rs:601-612 | a user's slot never decreases over any run |
| CooldownRuns.CooldownWindow | src/processor.rs:601-714 | after a user's latest accepted deposit the unlock slot is at most the deposit slot plus the current cooldown and, if the cooldown was not lowered, at least the deposit slot plus the new LP's share of it |
| CooldownRuns.NoWithdrawalInDepositSlot | src/processor.rs:705-714 | with a positive cooldown that was not lowered, nothing is withdrawn in the slot of the latest accepted deposit |
| Orphans.OrphansComeFromReturns | src/processor.rs:1229-1236 | only an insurance return can leave value in a pool without LP |
| Orphans.OrphanBlocksMintIff | src/math.rs:25-37 | orphaned value blocks the mint if and only if the counters are in range |
| Orphans.OrphanedValueIsUnclaimable | src/math.rs:25-37 | while orphaned value remains and the counters stay in range, every deposit and withdrawal of any continuation is rejected |
| Witnesses.OrphanIsReachable | src/processor.rs:1229-1236 | orphaned value in range is reachable |
| Orphans.EmptyPoolOpenIff | src/math.rs:25-32 | in range, a pool without LP accepts a deposit if and only if its value is zero and the deposit is positive, funded, within the cap, before resolution and fits the vault and the counter; it then mints one LP per unit |
| Resolution.ResolutionIsPermanent | src/processor.rs:1151-1155 | a resolved pool stays resolved and its LP supply never grows, from any state |
| Resolution.ResolvedMarketTakesNoDeposit | src/processor.rs:455-457 | after an accepted resolution every later deposit is rejected |

## Left out

- Account plumbing: PDA derivation, signer, owner, mint and token-program checks are single tests against hashes and keys with no accounting effect.
- Account creation, rent and lamports: they happen in the system program, which is not part of this model.
- The wrapper program and `src/cpi.rs`: a foreign call is an input that succeeds or fails.
- TransferAdmin, AdminSetOracleAuthority, AdminSetRiskThreshold, AdminSetMaintenanceFee, AdminSetInsurancePolicy: they forward or fail and change no amount; the admin-transferred flag is always set by initialisation and is not modelled.
- `src/instruction.rs`: fixed-offset decoding of instruction bytes; steps are values here.
- `last_fee_accrual_slot`, `last_vault_snapshot`: written and never read.
- `pool_value`, `pool_value_with_fees` in `src/math.rs`: no handler uses them.
- Discriminator of deposit records: written at creation and never checked by a handler.
- Half-written fields of a failed handler: the handlers promise the error and not those fields, because `Vault.Execute` restores every account, as the runtime does.
