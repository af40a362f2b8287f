/** Value that came back from insurance after the last LP left belongs to nobody
    and stays closed until it is flushed out again. */
module Orphans {
  import opened Machine
  import opened PoolState
  import opened VaultMachine
  import opened Invariant
  import ShareLaws
  import Solvency

  predicate Orphaned(s: State) {
    s.pool.initialized && s.pool.mode == INSURANCE_MODE && s.pool.lpSupply == 0 && s.pool.NetValue() > 0
  }

  /** Only an insurance return creates orphaned value. */
  lemma OrphansComeFromReturns(s: State, step: Step)
    requires Reachable(s) && !Orphaned(s) && !step.WithdrawInsurance?
    ensures !Orphaned(Next(s, step))
  {
    ReachableInv(s);
    match step
    case Deposit(user, lpTo, amount, funded) =>
      if Apply(s, step).Ok? {
        DepositEffect(s, user, lpTo, amount, funded, Next(s, step));
      }
    case Withdraw(user, lp) =>
      if Apply(s, step).Ok? {
        LastOutTakesAll(s, user, lp, Next(s, step));
      }
    case InitPool(_, _, _) => SetupStartsEmpty(s, step);
    case InitTradingPool(_, _, _) => SetupStartsEmpty(s, step);
    case _ => OtherStepsAddNothing(s, step);
  }

  lemma OtherStepsAddNothing(s: State, step: Step)
    requires !step.Deposit? && !step.Withdraw? && !step.WithdrawInsurance? && !step.InitPool? && !step.InitTradingPool?
    ensures var p := Next(s, step).pool;
      && p.initialized == s.pool.initialized && p.mode == s.pool.mode && p.lpSupply == s.pool.lpSupply
      && (s.pool.mode == INSURANCE_MODE ==> p.NetValue() <= s.pool.NetValue())
  {
  }

  lemma SetupStartsEmpty(s: State, step: Step)
    requires ModesSeparate(s) && (step.InitPool? || step.InitTradingPool?)
    ensures Next(s, step) == s || Next(s, step).pool.NetValue() == 0
  {
  }

  lemma LastOutTakesAll(s: State, user: Pubkey, lp: u64, s': State)
    requires Inv(s) && DoWithdraw(s, user, lp) == Ok(s')
    ensures s'.pool.lpSupply == 0 ==> s'.pool.NetValue() == 0
  {
    WithdrawEffect(s, user, lp, s');
    BurnEffect(s.pool, lp, Paid(s, s'));
    ShareLaws.BurnKeepsPrice(s.pool.lpSupply, s.pool.NetValue(), lp, Paid(s, s'));
  }

  /** Orphaned value blocks the mint exactly while the totals are in range. */
  lemma OrphanBlocksMintIff(s: State, amount: u64)
    requires Reachable(s) && Orphaned(s)
    ensures s.pool.CalcLpForDeposit(amount).None? <==> s.pool.InRange()
  {
    ReachableInv(s);
    ValueMeaning(s.pool);
  }

  /** No user step succeeds on orphaned value. */
  lemma OrphanRejects(s: State, step: Step)
    requires Inv(s) && Orphaned(s) && s.pool.InRange() && (step.Deposit? || step.Withdraw?)
    ensures Apply(s, step).Err?
  {
    ValueMeaning(s.pool);
    if step.Withdraw? {
      PositionWithinSupply(s, step.user);
    }
  }

  lemma OrphanPersists(s: State, step: Step)
    requires Inv(s) && Orphaned(s) && s.pool.InRange()
    ensures Next(s, step).pool.lpSupply == 0 && Next(s, step).pool.initialized
    ensures Next(s, step).pool.mode == INSURANCE_MODE
  {
    if step.Deposit? || step.Withdraw? {
      OrphanRejects(s, step);
    }
  }

  /** The value is positive in every state of the run. */
  predicate StaysFunded(s: State, steps: seq<Step>)
    decreases steps
  {
    s.pool.NetValue() > 0 && (steps != [] ==> StaysFunded(Next(s, steps[0]), steps[1..]))
  }

  predicate UserStepsRejected(s: State, steps: seq<Step>)
    decreases steps
  {
    steps != [] ==>
      && ((steps[0].Deposit? || steps[0].Withdraw?) ==> Apply(s, steps[0]).Err?)
      && UserStepsRejected(Next(s, steps[0]), steps[1..])
  }

  lemma {:induction false} OrphanRun(s: State, steps: seq<Step>)
    requires Inv(s) && Orphaned(s) && StaysFunded(s, steps) && Run(s, steps).pool.InRange()
    ensures Orphaned(Run(s, steps)) && UserStepsRejected(s, steps)
    decreases steps
  {
    if steps != [] {
      Solvency.RunInflowsGrow(s, steps);
      OrphanPersists(s, steps[0]);
      if steps[0].Deposit? || steps[0].Withdraw? {
        OrphanRejects(s, steps[0]);
      }
      StepKeeps(s, steps[0]);
      OrphanRun(Next(s, steps[0]), steps[1..]);
    }
  }

  /** In every continuation, until flushes have emptied the pool, no deposit and no
      withdrawal gets through. */
  lemma OrphanedValueIsUnclaimable(s: State, steps: seq<Step>)
    requires Reachable(s) && Orphaned(s) && StaysFunded(s, steps) && Run(s, steps).pool.InRange()
    ensures Orphaned(Run(s, steps)) && UserStepsRejected(s, steps)
  {
    ReachableInv(s);
    OrphanRun(s, steps);
  }

  /** In range, a pool without LP is open exactly while its value is zero, and then
      gives one LP per unit. */
  lemma EmptyPoolOpenIff(s: State, user: Pubkey, lpTo: Pubkey, amount: u64, funded: bool)
    requires Reachable(s) && s.pool.initialized && s.pool.lpSupply == 0 && s.pool.InRange()
    ensures var r := DoDeposit(s, user, lpTo, amount, funded);
      && (r.Ok? <==>
            && s.pool.NetValue() == 0 && Solvency.RoomFor(s, amount)
            && amount > 0 && funded && !s.pool.header.resolved && Solvency.CapAllows(s.pool, amount))
      && (r.Ok? ==> Minted(s, r.value) == amount)
  {
    ReachableInv(s);
    Solvency.DepositAcceptedIff(s, user, lpTo, amount, funded);
    var r := DoDeposit(s, user, lpTo, amount, funded);
    if r.Ok? {
      DepositEffect(s, user, lpTo, amount, funded, r.value);
      MintEffect(s, amount, Minted(s, r.value));
    }
  }
}
