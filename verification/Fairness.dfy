/** No user activity moves value from one holder to another: the share price never
    falls outside a flush, bystanders keep their claims, and no run of deposits
    and withdrawals beats a single one. */
module Fairness {
  import opened Machine
  import opened Rounding
  import opened PoolState
  import opened VaultMachine
  import opened Invariant
  import opened ShareLaws
  import Solvency

  /** No flush of the run is accepted. */
  predicate FlushFree(s: State, steps: seq<Step>)
    decreases steps
  {
    steps != [] ==>
      && !(steps[0].FlushToInsurance? && Apply(s, steps[0]).Ok?)
      && FlushFree(Next(s, steps[0]), steps[1..])
  }

  /** Every step of the run starts with LP outstanding. */
  predicate SupplyLastsRun(s: State, steps: seq<Step>)
    decreases steps
  {
    steps != [] ==> s.pool.lpSupply > 0 && SupplyLastsRun(Next(s, steps[0]), steps[1..])
  }

  ghost predicate PriceKept(s: State, s': State) {
    PriceAtLeast(s'.pool.lpSupply, s'.pool.NetValue(), s.pool.lpSupply, s.pool.NetValue())
  }

  /** What a recorded position would be paid now, by the code's own formula. */
  function Claim(s: State, user: Pubkey): nat {
    s.pool.CalcCollateralForWithdraw(PositionOf(s, user).lp).UnwrapOr(0)
  }

  lemma ClaimMeaning(s: State, user: Pubkey)
    requires Inv(s) && s.pool.InRange() && s.pool.lpSupply > 0
    ensures s.pool.CalcCollateralForWithdraw(PositionOf(s, user).lp).Some?
    ensures Claim(s, user) == PositionOf(s, user).lp * s.pool.NetValue() / s.pool.lpSupply
  {
    PositionWithinSupply(s, user);
    Solvency.BurnInRange(s.pool, PositionOf(s, user).lp);
  }

  lemma DepositKeepsPrice(s: State, user: Pubkey, lpTo: Pubkey, amount: u64, funded: bool, s': State)
    requires Inv(s) && s.pool.lpSupply > 0 && DoDeposit(s, user, lpTo, amount, funded) == Ok(s')
    ensures PriceKept(s, s')
  {
    DepositEffect(s, user, lpTo, amount, funded, s');
    var lp := Minted(s, s');
    SettledDeposit(s, user, lpTo, amount, funded, lp, s');
    MintEffect(s, amount, lp);
    MintKeepsPrice(s.pool.lpSupply, s.pool.NetValue(), amount, lp);
  }

  lemma WithdrawKeepsPrice(s: State, user: Pubkey, lp: u64, s': State)
    requires Inv(s) && DoWithdraw(s, user, lp) == Ok(s')
    ensures PriceKept(s, s')
  {
    WithdrawEffect(s, user, lp, s');
    BurnEffect(s.pool, lp, Paid(s, s'));
    BurnKeepsPrice(s.pool.lpSupply, s.pool.NetValue(), lp, Paid(s, s'));
  }

  /** Without a flush nothing else lowers the value or moves the supply, and only cranks
      and insurance returns raise the value. */
  lemma QuietValueGrows(s: State, step: Step)
    requires s.pool.initialized && !step.FlushToInsurance? && !step.Deposit? && !step.Withdraw?
    ensures var s' := Next(s, step);
      && s'.pool.lpSupply == s.pool.lpSupply && s'.pool.initialized && s'.pool.mode == s.pool.mode
      && s'.pool.NetValue() >= s.pool.NetValue()
      && (!step.AccrueFees? && !step.WithdrawInsurance? ==> s'.pool.NetValue() == s.pool.NetValue())
  {
  }

  lemma StepKeepsPrice(s: State, step: Step)
    requires Inv(s) && s.pool.lpSupply > 0 && !(step.FlushToInsurance? && Apply(s, step).Ok?)
    ensures PriceKept(s, Next(s, step))
  {
    match step
    case Deposit(user, lpTo, amount, funded) =>
      if Apply(s, step).Ok? {
        DepositKeepsPrice(s, user, lpTo, amount, funded, Next(s, step));
      }
    case Withdraw(user, lp) =>
      if Apply(s, step).Ok? {
        WithdrawKeepsPrice(s, user, lp, Next(s, step));
      }
    case FlushToInsurance(_, _, _) =>
    case _ =>
      QuietValueGrows(s, step);
      Rises(s, Next(s, step));
  }

  lemma Rises(s: State, s': State)
    requires s'.pool.lpSupply == s.pool.lpSupply && s'.pool.NetValue() >= s.pool.NetValue()
    ensures PriceKept(s, s')
  {
    MulMono(s.pool.NetValue(), s'.pool.NetValue(), s.pool.lpSupply);
  }

  /** Over any flush-free run that keeps LP outstanding, the share price never
      falls; fees and insurance returns can only raise it. */
  lemma {:induction false} RunKeepsPrice(s: State, steps: seq<Step>)
    requires Inv(s) && FlushFree(s, steps) && SupplyLastsRun(s, steps)
    ensures PriceKept(s, Run(s, steps))
    decreases steps
  {
    if steps != [] {
      var s1, end := Next(s, steps[0]), Run(s, steps);
      StepKeepsPrice(s, steps[0]);
      StepKeeps(s, steps[0]);
      RunKeeps(s1, steps[1..]);
      RunKeepsPrice(s1, steps[1..]);
      if s1.pool.lpSupply > 0 {
        PriceTransitive(s.pool.lpSupply, s.pool.NetValue(), s1.pool.lpSupply, s1.pool.NetValue(),
                        end.pool.lpSupply, end.pool.NetValue());
      } else {
        assert steps[1..] == [];
      }
    }
  }

  // ---------------------------------------------------------------- bystanders

  /** The step is a deposit or withdrawal of the user, and goes through. */
  predicate MovesPosition(s: State, step: Step, user: Pubkey) {
    (step.Deposit? || step.Withdraw?) && step.user == user && Apply(s, step).Ok?
  }

  /** No deposit or withdrawal of the user is accepted. */
  predicate NotBy(s: State, steps: seq<Step>, user: Pubkey)
    decreases steps
  {
    steps != [] ==> !MovesPosition(s, steps[0], user) && NotBy(Next(s, steps[0]), steps[1..], user)
  }

  lemma StepSparesRecord(s: State, step: Step, user: Pubkey)
    requires !MovesPosition(s, step, user)
    ensures PositionOf(Next(s, step), user) == PositionOf(s, user)
  {
    match step
    case Deposit(other, lpTo, amount, funded) =>
      if Apply(s, step).Ok? {
        DepositEffect(s, other, lpTo, amount, funded, Next(s, step));
        SettledDeposit(s, other, lpTo, amount, funded, Minted(s, Next(s, step)), Next(s, step));
      }
    case Withdraw(other, lp) =>
      if Apply(s, step).Ok? {
        WithdrawEffect(s, other, lp, Next(s, step));
      }
    case _ => OthersLeaveRecords(s, step);
  }

  /** An untouched position stays as it is and, through the record sum, keeps the
      supply positive whatever everybody else does. */
  lemma {:induction false} RunSparesRecord(s: State, steps: seq<Step>, user: Pubkey)
    requires Inv(s) && NotBy(s, steps, user)
    ensures PositionOf(Run(s, steps), user) == PositionOf(s, user)
    ensures PositionOf(s, user).lp > 0 ==> SupplyLastsRun(s, steps)
    decreases steps
  {
    PositionWithinSupply(s, user);
    if steps != [] {
      StepSparesRecord(s, steps[0], user);
      StepKeeps(s, steps[0]);
      RunSparesRecord(Next(s, steps[0]), steps[1..], user);
    }
  }

  /** Whatever other users, cranks, insurance returns and configuration changes do
      in a flush-free run, the price does not fall and the claim of an untouched
      position does not shrink, as long as the totals stay in range. */
  lemma BystanderProtection(s: State, steps: seq<Step>, user: Pubkey)
    requires Reachable(s) && PositionOf(s, user).lp > 0
    requires FlushFree(s, steps) && NotBy(s, steps, user)
    ensures PriceKept(s, Run(s, steps))
    ensures PositionOf(Run(s, steps), user) == PositionOf(s, user)
    ensures Run(s, steps).pool.InRange() ==> Claim(Run(s, steps), user) >= Claim(s, user)
  {
    ReachableInv(s);
    var end := Run(s, steps);
    RunKeeps(s, steps);
    RunSparesRecord(s, steps, user);
    RunKeepsPrice(s, steps);
    Solvency.RunInflowsGrow(s, steps);
    PositionWithinSupply(s, user);
    PositionWithinSupply(end, user);
    if end.pool.InRange() {
      ClaimMeaning(s, user);
      ClaimMeaning(end, user);
      ClaimFollowsPrice(PositionOf(s, user).lp, s.pool.lpSupply, s.pool.NetValue(),
                        end.pool.lpSupply, end.pool.NetValue());
    }
  }

  // ---------------------------------------------------------------- round trip

  /** Depositing and withdrawing the minted LP at once, on any reachable vault: never a
      gain, and lossless exactly when the pool was worthless or the mint did not round. */
  lemma VaultRoundTrip(s: State, user: Pubkey, lpTo: Pubkey, amount: u64, funded: bool, s1: State, s2: State)
    requires Reachable(s) && DoDeposit(s, user, lpTo, amount, funded) == Ok(s1)
    requires 0 <= Minted(s, s1) && DoWithdraw(s1, user, Minted(s, s1)) == Ok(s2)
    ensures s2.pool.lpSupply == s.pool.lpSupply && s2.vault == s.vault + amount - Paid(s1, s2)
    ensures Paid(s1, s2) <= amount
    ensures Paid(s1, s2) == amount <==>
      s.pool.NetValue() == 0 || amount * s.pool.lpSupply % s.pool.NetValue() == 0
  {
    ReachableInv(s);
    var lp := Minted(s, s1);
    DepositEffect(s, user, lpTo, amount, funded, s1);
    SettledDeposit(s, user, lpTo, amount, funded, lp, s1);
    WithdrawEffect(s1, user, lp, s2);
    TripOfPools(s.pool, amount, lp, s1.pool, Paid(s1, s2));
  }

  lemma TripOfPools(p: Pool, amount: u64, lp: u64, p1: Pool, back: u64)
    requires p.NetValue() >= 0 && p.CalcLpForDeposit(amount) == Some(lp)
    requires p1.lpSupply == p.lpSupply + lp && p1.NetValue() == p.NetValue() + amount
    requires p1.Inflows() == p.Inflows() + amount && p1.CalcCollateralForWithdraw(lp) == Some(back)
    ensures back <= amount
    ensures back == amount <==> p.NetValue() == 0 || amount * p.lpSupply % p.NetValue() == 0
  {
    BurnEffect(p1, lp, back);
    ValueMeaning(p);
    ValueMeaning(p1);
    RoundTripLossBounds(p.lpSupply, p.NetValue(), amount, lp, back);
    RoundTripLosslessIff(p.lpSupply, p.NetValue(), amount, lp, back);
  }

  // ------------------------------------------------------- one against many

  /** The step brings outside value in or out, or would if it were accepted. */
  predicate Outside(step: Step) {
    step.FlushToInsurance? || step.AccrueFees? || step.WithdrawInsurance?
  }

  /** No step that brings outside value in or out is accepted. */
  predicate NoOutsideValue(s: State, steps: seq<Step>)
    decreases steps
  {
    steps != [] ==>
      && !(Outside(steps[0]) && Apply(s, steps[0]).Ok?)
      && NoOutsideValue(Next(s, steps[0]), steps[1..])
  }

  lemma {:induction false} NothingOutsideIsFlushFree(s: State, steps: seq<Step>)
    requires NoOutsideValue(s, steps)
    ensures FlushFree(s, steps)
    decreases steps
  {
    if steps != [] {
      NothingOutsideIsFlushFree(Next(s, steps[0]), steps[1..]);
    }
  }

  /** Collateral paid out minus collateral paid in between two states. */
  function NetPaid(s: State, s': State): int {
    (s'.pool.withdrawn - s.pool.withdrawn) - (s'.pool.deposited - s.pool.deposited)
  }

  /** A net burn of k LP is paid at most floor(k * value / supply); a net mint of m LP
      costs at least m * value / supply, both at the prices of s. */
  ghost predicate NetCapped(s: State, end: State)
    requires s.pool.lpSupply > 0
  {
    && (end.pool.lpSupply <= s.pool.lpSupply ==>
          NetPaid(s, end) <= (s.pool.lpSupply - end.pool.lpSupply) * s.pool.NetValue() / s.pool.lpSupply)
    && (end.pool.lpSupply >= s.pool.lpSupply ==>
          -NetPaid(s, end) * s.pool.lpSupply >= (end.pool.lpSupply - s.pool.lpSupply) * s.pool.NetValue())
  }

  lemma PriceCapsPayments(s: State, end: State)
    requires s.pool.lpSupply > 0 && s.pool.NetValue() >= 0 && end.pool.NetValue() >= 0
    requires PriceKept(s, end) && NetPaid(s, end) == s.pool.NetValue() - end.pool.NetValue()
    ensures NetCapped(s, end)
  {
    PriceCapsTheNet(s.pool.lpSupply, s.pool.NetValue(), end.pool.lpSupply, end.pool.NetValue());
  }

  lemma StepMovesOnlyDeposits(s: State, step: Step)
    requires Inv(s) && s.pool.initialized && !(Outside(step) && Apply(s, step).Ok?)
    ensures NetPaid(s, Next(s, step)) == s.pool.NetValue() - Next(s, step).pool.NetValue()
    ensures Next(s, step).pool.initialized
  {
    var r := Apply(s, step);
    if r.Ok? {
      match step
      case Deposit(user, lpTo, amount, funded) =>
        DepositEffect(s, user, lpTo, amount, funded, r.value);
        SettledDeposit(s, user, lpTo, amount, funded, Minted(s, r.value), r.value);
      case Withdraw(user, lp) => WithdrawEffect(s, user, lp, r.value);
      case _ =>
    }
  }

  lemma {:induction false} RunMovesOnlyDeposits(s: State, steps: seq<Step>)
    requires Inv(s) && s.pool.initialized && NoOutsideValue(s, steps)
    ensures NetPaid(s, Run(s, steps)) == s.pool.NetValue() - Run(s, steps).pool.NetValue()
    decreases steps
  {
    if steps != [] {
      StepMovesOnlyDeposits(s, steps[0]);
      StepKeeps(s, steps[0]);
      RunMovesOnlyDeposits(Next(s, steps[0]), steps[1..]);
    }
  }

  /** Any interleaving of deposits and withdrawals by any users, with supply lasting
      to the last step: if it burns net k LP, it pays net at most one burn of k at
      the start; if it mints net m LP, it costs net at least m at the start price. */
  lemma NoRunBeatsOneOperation(s: State, steps: seq<Step>)
    requires Reachable(s) && s.pool.lpSupply > 0
    requires NoOutsideValue(s, steps) && SupplyLastsRun(s, steps)
    ensures NetCapped(s, Run(s, steps))
  {
    ReachableInv(s);
    RunKeeps(s, steps);
    NothingOutsideIsFlushFree(s, steps);
    RunKeepsPrice(s, steps);
    RunMovesOnlyDeposits(s, steps);
    PriceCapsPayments(s, Run(s, steps));
  }
}
