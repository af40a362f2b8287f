/** Concrete runs, from zeroed accounts, that reach the states where a promise one
    might expect of the vault fails. Each exact condition is proved elsewhere. */
module Witnesses {
  import opened Machine
  import opened Rounding
  import opened PoolState
  import opened VaultMachine
  import opened Invariant
  import VaultMath
  import Solvency
  import Fairness
  import Orphans
  import Drawdown

  /** The one user of these runs. */
  const ALICE: Pubkey := 7

  const GUARD_ON := SetHwmConfig(true, true, 5000)

  const HALF: u64 := 0x7FFF_FFFF_FFFF_FFFF

  /** A reachable pool whose supply is one user's, with neither cooldown, cap, mark
      nor offset. */
  ghost predicate Solo(s: State, mode: u8, supply: u64) {
    && Reachable(s) && s.pool.initialized && s.pool.mode == mode && s.pool.lpSupply == supply
    && PositionOf(s, ALICE) == Position(0, supply) && Held(s.lpHeld, ALICE) == supply
    && s.slot == 0 && s.pool.cooldown == 0 && s.pool.cap == 0
    && !s.pool.header.resolved && s.pool.header.offset == 0 == s.pool.header.highWater
  }

  predicate Counters(s: State, deposited: int, withdrawn: int, fees: int, donated: int) {
    && s.pool.deposited == deposited && s.pool.withdrawn == withdrawn
    && s.pool.fees == fees && s.donated == donated
    && s.pool.flushed == 0 && s.pool.returned == 0
  }

  // ------------------------------------------------------------ building blocks

  lemma NewPool(trading: bool) returns (s: State)
    ensures Solo(s, if trading then TRADING_MODE else INSURANCE_MODE, 0) && Counters(s, 0, 0, 0, 0)
    ensures !s.pool.header.hwmEnabled
  {
    var s0 := Initial(0, 0);
    assert s0 == Run(s0, []);
    var step := if trading then InitTradingPool(0, 0, true) else InitPool(0, 0, true);
    s := Next(s0, step);
    ReachableNext(s0, step);
  }

  lemma FundedPool(trading: bool, amount: u64) returns (s: State)
    requires amount > 0
    ensures Solo(s, if trading then TRADING_MODE else INSURANCE_MODE, amount) && Counters(s, amount, 0, 0, 0)
    ensures !s.pool.header.hwmEnabled
  {
    var s0 := NewPool(trading);
    ReachableInv(s0);
    FirstDeposit(s0, amount);
    var step := Deposit(ALICE, ALICE, amount, true);
    s := Next(s0, step);
    ReachableNext(s0, step);
    DepositEffect(s0, ALICE, ALICE, amount, true, s);
    SettledDeposit(s0, ALICE, ALICE, amount, true, amount, s);
    FreshSlot(amount);
  }

  /** A pool without LP whose value reads as zero takes a deposit one to one. */
  lemma FirstDeposit(s: State, amount: u64)
    requires Inv(s) && s.pool.initialized && s.pool.lpSupply == 0 && s.pool.cap == 0 && !s.pool.header.resolved
    requires s.pool.TotalPoolValue().UnwrapOr(0) == 0 && amount > 0
    requires s.vault + amount <= U64_MAX && s.pool.deposited + amount <= U64_MAX
    requires Held(s.lpHeld, ALICE) == 0 == PositionOf(s, ALICE).lp
    ensures DoDeposit(s, ALICE, ALICE, amount, true).Ok?
    ensures Minted(s, DoDeposit(s, ALICE, ALICE, amount, true).value) == amount
  {
  }

  lemma FreshSlot(lp: u64)
    requires lp > 0
    ensures VaultMath.WeightedDepositSlot(0, 0, lp, 0, 0) == 0
  {
  }

  lemma SoloWithdraws(s: State, mode: u8, supply: u64, lp: u64, paid: u64) returns (s': State)
    requires Solo(s, mode, supply) && s.pool.InRange() && !s.pool.header.hwmEnabled
    requires 0 < lp <= supply && paid > 0 && paid * supply <= lp * s.pool.NetValue() < paid * supply + supply
    ensures s' == Next(s, Withdraw(ALICE, lp)) && Solo(s', mode, supply - lp) && s'.vault == s.vault - paid
    ensures s'.epoch == s.epoch
    ensures s'.pool == s.pool.(withdrawn := s'.pool.withdrawn, lpSupply := supply - lp)
    ensures s'.pool.withdrawn == s.pool.withdrawn + paid && s'.donated == s.donated
  {
    ReachableInv(s);
    Solvency.BurnInRange(s.pool, lp);
    FloorIs(lp * s.pool.NetValue(), supply, paid);
    Solvency.WithdrawAccepts(s, ALICE, lp);
    s' := Next(s, Withdraw(ALICE, lp));
    ReachableNext(s, Withdraw(ALICE, lp));
    WithdrawEffect(s, ALICE, lp, s');
  }

  /** Tokens sent to a trading pool with LP are booked as fees by the next crank. */
  lemma FeesArrive(s: State, supply: u64, amount: u64) returns (s': State)
    requires Solo(s, TRADING_MODE, supply) && supply > 0 && s.pool.InRange()
    requires s.pool.fees == 0 == s.donated && s.vault + amount <= U64_MAX
    ensures Solo(s', TRADING_MODE, supply) && s'.vault == s.vault + amount && s'.donated == amount
    ensures s'.pool == s.pool.(fees := amount)
  {
    ReachableInv(s);
    var s1 := Next(s, Donate(amount));
    ReachableNext(s, Donate(amount));
    ReachableNext(s1, AccrueFees);
    s' := Next(s1, AccrueFees);
    BookFees(s1, amount);
  }

  lemma BookFees(s: State, amount: u64)
    requires Books(s) && s.pool.initialized && s.pool.mode == TRADING_MODE && s.pool.lpSupply > 0 && s.pool.InRange()
    requires s.pool.fees == 0 == s.pool.header.offset && s.donated == amount
    ensures DoAccrueFees(s) == Ok(s.(pool := s.pool.(fees := amount)))
  {
  }

  lemma GuardedPool() returns (s: State)
    ensures Solo(s, INSURANCE_MODE, 100) && Counters(s, 100, 0, 0, 0)
    ensures s.pool.header.hwmEnabled && s.pool.header.floorBps == 5000
  {
    var s0 := FundedPool(false, 100);
    ReachableInv(s0);
    s := Next(s0, GUARD_ON);
    ReachableNext(s0, GUARD_ON);
  }

  // ------------------------------------------------------------------ witnesses

  /** The pool value is not the vault balance, in either mode, after one unit is sent
      straight to the vault. */
  lemma ValueCanMissVault(trading: bool) returns (s: State)
    ensures Reachable(s) && s.pool.mode == (if trading then TRADING_MODE else INSURANCE_MODE)
    ensures s.vault == 1 && s.pool.TotalPoolValue() == Some(0)
  {
    var s0 := NewPool(trading);
    ReachableInv(s0);
    s := Next(s0, Donate(1));
    ReachableNext(s0, Donate(1));
  }

  /** The totals really can run out: one holder leaves all but one LP, one unit of
      fees arrives, and the last LP can no longer be redeemed. The pool reports no value
      although every token in the vault is booked. */
  lemma FreezeIsReachable() returns (s: State)
    ensures Reachable(s) && s.pool.mode == TRADING_MODE
    ensures s.pool.lpSupply == 1 && s.pool.NetValue() == 2 && !s.pool.InRange()
    ensures s.pool.TotalPoolValue() == None && s.vault == 2
    ensures s.pool.header.offset == 0 && s.pool.fees == s.donated
  {
    var s1 := FundedPool(true, U64_MAX);
    ReachableInv(s1);
    var s2 := SoloWithdraws(s1, TRADING_MODE, U64_MAX, U64_MAX - 1, U64_MAX - 1);
    ReachableInv(s2);
    s := FeesArrive(s2, 1, 1);
  }

  /** In range is not enough for the crank: lifetime donations of more than u64::MAX
      do not fit the fee counter, although a withdrawal made room for them. */
  lemma CrankCanOverflow() returns (s: State)
    ensures Reachable(s) && s.pool.mode == TRADING_MODE && s.pool.InRange() && s.pool.lpSupply == 1
    ensures DoAccrueFees(s) == Err(Overflow)
  {
    var s1 := FundedPool(true, 2);
    ReachableInv(s1);
    var s2 := FeesArrive(s1, 2, U64_MAX - 2);
    var s3 := SoloWithdraws(s2, TRADING_MODE, 2, 1, HALF);
    s := Next(s3, Donate(HALF));
    ReachableNext(s3, Donate(HALF));
    Solvency.CrankAcceptedIff(s);
  }

  /** An out-of-range insurance pool without LP still takes a deposit, which by
      `OutOfRangeDepositIsLocked` nobody can withdraw again. It reports no value although
      nothing was ever donated. */
  lemma LockedDepositIsReachable() returns (s: State)
    ensures Reachable(s) && s.pool.mode == INSURANCE_MODE && !s.pool.InRange()
    ensures s.pool.TotalPoolValue() == None && s.vault > 0 && s.donated == 0
    ensures DoDeposit(s, ALICE, ALICE, 1, true).Ok?
  {
    var s1 := FundedPool(false, HALF + 1);
    ReachableInv(s1);
    var s2 := SoloWithdraws(s1, INSURANCE_MODE, HALF + 1, HALF + 1, HALF + 1);
    ReachableInv(s2);
    var step := WithdrawInsurance(true, HALF + 1, true);
    s := Next(s2, step);
    ReachableNext(s2, step);
    ReachableInv(s);
    FirstDeposit(s, 1);
  }

  /** Value orphaned in range: the only holder leaves, then one unit comes back. */
  lemma OrphanIsReachable() returns (s: State)
    ensures Reachable(s) && Orphans.Orphaned(s) && s.pool.InRange()
  {
    var s1 := FundedPool(false, 1);
    ReachableInv(s1);
    var s2 := SoloWithdraws(s1, INSURANCE_MODE, 1, 1, 1);
    ReachableInv(s2);
    s := Next(s2, WithdrawInsurance(true, 1, true));
    ReachableNext(s2, WithdrawInsurance(true, 1, true));
  }

  /** The documentation calls the round trip lossless; seven units into a pool of three
      LP worth ten come back as six. */
  lemma RoundTripCanLose() returns (s: State, s1: State, s2: State)
    ensures Reachable(s) && s.pool.lpSupply == 3 && s.pool.NetValue() == 10
    ensures DoDeposit(s, ALICE, ALICE, 7, true) == Ok(s1) && Minted(s, s1) == 2
    ensures DoWithdraw(s1, ALICE, 2) == Ok(s2) && Paid(s1, s2) == 6
  {
    var s0 := FundedPool(true, 3);
    ReachableInv(s0);
    s := FeesArrive(s0, 3, 7);
    s1 := TopUp(s);
    s2 := Next(s1, Withdraw(ALICE, 2));
    ReachableInv(s1);
    Solvency.BurnInRange(s1.pool, 2);
    Solvency.WithdrawAccepts(s1, ALICE, 2);
    WithdrawEffect(s1, ALICE, 2, s2);
  }

  lemma TopUp(s: State) returns (s1: State)
    requires Solo(s, TRADING_MODE, 3) && s.vault == 10 && Counters(s, 3, 0, 7, 7) && !s.pool.header.hwmEnabled
    ensures DoDeposit(s, ALICE, ALICE, 7, true) == Ok(s1) && Minted(s, s1) == 2
    ensures Solo(s1, TRADING_MODE, 5) && s1.pool.NetValue() == 17 && s1.pool.InRange() && !s1.pool.header.hwmEnabled
  {
    var step := Deposit(ALICE, ALICE, 7, true);
    Solvency.TradingDepositAcceptedIff(s, ALICE, ALICE, 7, true);
    s1 := Next(s, step);
    ReachableNext(s, step);
    DepositEffect(s, ALICE, ALICE, 7, true, s1);
    MintEffect(s, 7, Minted(s, s1));
    SettledDeposit(s, ALICE, ALICE, 7, true, 2, s1);
  }

  /** The guard is on at one half at both ends of the run, the epoch is the same, and a
      payout passes that leaves less than half of the peak. */
  ghost predicate PeakHidden(s: State, steps: seq<Step>) {
    var t := Run(s, steps);
    && Reachable(s) && s.pool.header.hwmEnabled && s.pool.header.floorBps == 5000
    && t.epoch == s.epoch && t.pool.header == s.pool.header
    && Drawdown.Peak(s, steps) == 200 && Drawdown.Floor(200, 5000) == 100
    && t.pool.NetValue() - 10 == 60 && HwmCheck(t.pool, t.epoch, 10).Ok?
  }

  /** An insurance return lifts the value to 200 unrecorded and a flush brings it to 70,
      where a payout of 10 passes. */
  lemma FlushHidesPeak() returns (s: State, steps: seq<Step>)
    ensures PeakHidden(s, steps)
  {
    s := GuardedPool();
    ReachableInv(s);
    var back, out := WithdrawInsurance(true, 100, true), FlushToInsurance(true, 130, true);
    steps := [back, out];
    var s1 := Next(s, back);
    var t := Next(s1, out);
    Unroll(t, [], s1, out);
    Unroll(s1, [out], s, back);
    ReachableRun(s, steps);
    Drawdown.GuardPassesIff(t, 10);
  }

  /** Without any flush: the return lifts the value to 200, and a withdrawal made while
      the guard is switched off brings it to 70. */
  lemma ToggleHidesPeak() returns (s: State, steps: seq<Step>)
    ensures PeakHidden(s, steps) && Fairness.FlushFree(s, steps)
  {
    s := GuardedPool();
    var back, off, exit, on :=
      WithdrawInsurance(true, 100, true), SetHwmConfig(true, false, 0), Withdraw(ALICE, 65), GUARD_ON;
    var s1, s2 := ReturnThenGuardOff(s, back, off);
    var s3 := SoloWithdraws(s2, INSURANCE_MODE, 100, 65, 130);
    var t := Next(s3, on);
    ReachableNext(s3, on);
    steps := [back, off, exit, on];
    FourSteps(s, s1, s2, s3, t, steps);
    Drawdown.GuardPassesIff(t, 10);
  }

  lemma FourSteps(s: State, s1: State, s2: State, s3: State, t: State, steps: seq<Step>)
    requires |steps| == 4 && forall step | step in steps :: !step.FlushToInsurance?
    requires s1 == Next(s, steps[0]) && s2 == Next(s1, steps[1])
    requires s3 == Next(s2, steps[2]) && t == Next(s3, steps[3])
    ensures Run(s, steps) == t && Fairness.FlushFree(s, steps)
    ensures Drawdown.Peak(s, steps) == Max(s.pool.NetValue(), Max(s1.pool.NetValue(),
              Max(s2.pool.NetValue(), Max(s3.pool.NetValue(), t.pool.NetValue()))))
  {
    Unroll(t, [], s3, steps[3]);
    Unroll(s3, [steps[3]], s2, steps[2]);
    Unroll(s2, steps[2..], s1, steps[1]);
    Unroll(s1, steps[1..], s, steps[0]);
    assert steps[2..] == [steps[2]] + [steps[3]];
    assert steps[1..] == [steps[1]] + steps[2..];
    assert steps == [steps[0]] + steps[1..];
  }

  lemma ReturnThenGuardOff(s: State, back: Step, off: Step) returns (s1: State, s2: State)
    requires Solo(s, INSURANCE_MODE, 100) && Counters(s, 100, 0, 0, 0)
    requires back == WithdrawInsurance(true, 100, true) && off == SetHwmConfig(true, false, 0)
    ensures s1 == Next(s, back) && s1.pool.NetValue() == 200
    ensures s2 == Next(s1, off) && Solo(s2, INSURANCE_MODE, 100) && s2.epoch == s.epoch
    ensures s2.pool.NetValue() == 200 && s2.pool.InRange()
    ensures s2.pool.header == s.pool.header.(hwmEnabled := false)
  {
    ReachableInv(s);
    s1 := Next(s, back);
    ReachableNext(s, back);
    s2 := Next(s1, off);
    ReachableNext(s1, off);
  }

  /** One more step in front of a run. */
  lemma Unroll(s1: State, steps: seq<Step>, s: State, step: Step)
    requires s1 == Next(s, step)
    ensures Run(s, [step] + steps) == Run(s1, steps)
    ensures Drawdown.Peak(s, [step] + steps) == Max(s.pool.NetValue(), Drawdown.Peak(s1, steps))
    ensures steps == [] ==> Drawdown.Peak(s1, steps) == s1.pool.NetValue() && Run(s1, steps) == s1
    ensures Fairness.FlushFree(s1, steps) && !step.FlushToInsurance? ==> Fairness.FlushFree(s, [step] + steps)
  {
    assert ([step] + steps)[1..] == steps;
  }
}
