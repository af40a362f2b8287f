/** What the books promise about real tokens: the fee ledger, agreement of the
    value formulas, solvency, and exactly when a pool stops working. */
module Solvency {
  import opened Machine
  import opened Rounding
  import opened PoolState
  import opened VaultMachine
  import opened Totals
  import opened Invariant
  import VaultMath
  import ShareLaws

  /** Over any users and any steps, the records add up to the supply and the LP
      mint never shows more than that. */
  lemma RecordConservation(s: State)
    requires Reachable(s)
    ensures Total(Positions(s.records)) == s.pool.lpSupply
    ensures Total(s.lpHeld) == s.mintSupply <= s.pool.lpSupply
  {
    ReachableInv(s);
  }

  // --------------------------------------------------------- value formulas

  /** Keeping the modes apart makes the three value formulas agree, as partial
      values: they fail on the same states. */
  lemma FormulasAgree(s: State)
    requires Reachable(s)
    ensures s.pool.mode == TRADING_MODE ==>
      && s.pool.flushed == 0 && s.pool.returned == 0
      && s.pool.AccrualBaseline() == s.pool.TotalPoolValue()
    ensures s.pool.mode == INSURANCE_MODE ==>
      && s.pool.fees == 0
      && s.pool.FlushCeiling() == s.pool.TotalPoolValue()
      && (s.pool.InRange() ==>
            s.pool.TotalPoolValue() == Some(VaultMath.FlushAvailable(s.pool.deposited, s.pool.returned,
                                                                     s.pool.withdrawn, s.pool.flushed)))
  {
    ReachableInv(s);
    PoolFormulasAgree(s.pool);
  }

  lemma PoolFormulasAgree(p: Pool)
    requires p.NetValue() >= 0
    ensures p.mode == TRADING_MODE && p.flushed == 0 && p.returned == 0 ==> p.AccrualBaseline() == p.TotalPoolValue()
    ensures p.mode == INSURANCE_MODE ==>
      && p.FlushCeiling() == p.TotalPoolValue()
      && (p.InRange() ==>
            p.TotalPoolValue() == Some(VaultMath.FlushAvailable(p.deposited, p.returned, p.withdrawn, p.flushed)))
  {
  }

  /** The pool reports a value exactly while its lifetime counters are in range,
      and then it is the true one; a bound on all tokens that ever came in is
      enough for that. */
  lemma ValueIsExact(s: State)
    requires Reachable(s)
    ensures s.pool.NetValue() >= 0
    ensures s.pool.TotalPoolValue() == if s.pool.InRange() then Some(s.pool.NetValue()) else None
    ensures s.pool.deposited + s.pool.returned + s.donated <= U64_MAX ==> s.pool.InRange()
  {
    ReachableInv(s);
    ValueMeaning(s.pool);
  }

  // -------------------------------------------------------------- fee ledger

  /** Fees and the zero-supply offset are backed by tokens that really arrived, and the
      vault covers value plus offset. The vault holds the value plus the donations not
      booked as fees, so the pool reports the vault balance exactly when the totals
      are in range and all of them are booked. */
  lemma FeeLedger(s: State)
    requires Reachable(s) && s.pool.mode == TRADING_MODE
    ensures s.vault >= s.pool.NetValue() + s.pool.header.offset
    ensures s.pool.fees + s.pool.header.offset <= s.donated
    ensures s.vault == s.pool.NetValue() + s.donated - s.pool.fees
    ensures s.pool.TotalPoolValue() == Some(s.vault) <==> s.pool.InRange() && s.pool.fees == s.donated
  {
    ReachableInv(s);
    ValueMeaning(s.pool);
  }

  /** After a crank the vault is fully explained, so a second crank changes nothing: no
      token is booked twice. The pool then reports the vault balance exactly when the totals
      are in range and the offset is zero. */
  lemma CrankBooksOnce(s: State, s': State)
    requires Reachable(s) && DoAccrueFees(s) == Ok(s')
    ensures s'.vault == s'.pool.NetValue() + s'.pool.header.offset
    ensures s'.pool.fees + s'.pool.header.offset == s'.donated
    ensures s'.pool.TotalPoolValue() == Some(s'.vault) <==> s'.pool.InRange() && s'.pool.header.offset == 0
    ensures Next(s', AccrueFees) == s'
  {
    ReachableInv(s);
    CrankBalances(s, s');
    BalancedCrankIsIdle(s');
    CrankKeepsBooks(s, s');
    ValueMeaning(s'.pool);
  }

  lemma CrankBalances(s: State, s': State)
    requires Books(s) && DoAccrueFees(s) == Ok(s')
    ensures s'.vault == s'.pool.NetValue() + s'.pool.header.offset
    ensures s'.pool.fees + s'.pool.header.offset == s'.donated
    ensures s'.pool.mode == TRADING_MODE && s'.pool.flushed == 0 && s'.pool.returned == 0
    ensures s'.pool.lpSupply == 0 ==> s'.pool.header.offset == s'.vault
  {
  }

  lemma BalancedCrankIsIdle(s: State)
    requires s.pool.mode == TRADING_MODE && s.pool.flushed == 0 && s.pool.returned == 0
    requires s.vault == s.pool.NetValue() + s.pool.header.offset
    requires s.pool.lpSupply == 0 ==> s.pool.header.offset == s.vault
    ensures Next(s, AccrueFees) == s
  {
  }

  /** Exactly when the crank works: on a trading pool, with no LP always, otherwise while the totals are
      in range and all donations but the offset still fit the fee counter. */
  lemma CrankAcceptedIff(s: State)
    requires Reachable(s)
    ensures DoAccrueFees(s).Ok? <==>
      && s.pool.mode == TRADING_MODE
      && (s.pool.lpSupply == 0 || (s.pool.InRange() && s.donated - s.pool.header.offset <= U64_MAX))
  {
    ReachableInv(s);
  }

  // ---------------------------------------------------------------- solvency

  /** An insurance vault holds exactly its value plus what was donated to it; the pool
      reports that balance exactly when the totals are in range and nothing was donated. */
  lemma InsuranceSolvency(s: State)
    requires Reachable(s) && s.pool.mode == INSURANCE_MODE
    ensures s.vault == s.pool.NetValue() + s.donated
    ensures s.pool.TotalPoolValue() == Some(s.vault) <==> s.pool.InRange() && s.donated == 0
  {
    ReachableInv(s);
    ValueMeaning(s.pool);
  }

  /** No step in any reachable state gets as far as asking the vault for tokens it
      does not have. */
  lemma NeverShort(s: State, step: Step)
    requires Reachable(s)
    ensures Apply(s, step) != Err(VaultShort)
  {
    ReachableInv(s);
    match step
    case Withdraw(user, lp) => WithdrawNeverShort(s, user, lp);
    case FlushToInsurance(byAdmin, amount, cpiOk) => FlushNeverShort(s, byAdmin, amount, cpiOk);
    case _ => OnlyPayoutsAskTheVault(s, step);
  }

  lemma OnlyPayoutsAskTheVault(s: State, step: Step)
    requires !step.Withdraw? && !step.FlushToInsurance?
    ensures Apply(s, step) != Err(VaultShort)
  {
  }

  lemma WithdrawNeverShort(s: State, user: Pubkey, lp: u64)
    requires Inv(s)
    ensures DoWithdraw(s, user, lp) != Err(VaultShort)
  {
    var gate := WithdrawGate(s, user, lp);
    if gate.Ok? {
      PositionWithinSupply(s, user);
      BurnEffect(s.pool, lp, gate.value);
      ShareLaws.BurnKeepsPrice(s.pool.lpSupply, s.pool.NetValue(), lp, gate.value);
    }
  }

  lemma FlushNeverShort(s: State, byAdmin: bool, amount: u64, cpiOk: bool)
    requires Inv(s)
    ensures DoFlush(s, byAdmin, amount, cpiOk) != Err(VaultShort)
  {
  }

  /** The admin of an insurance pool in range can flush exactly up to the pool value,
      returned insurance included, and is never refused for lack of tokens. */
  lemma FlushAcceptedIff(s: State, byAdmin: bool, amount: u64, cpiOk: bool)
    requires Reachable(s)
    ensures DoFlush(s, byAdmin, amount, cpiOk).Ok? <==>
      && s.pool.initialized && s.pool.mode == INSURANCE_MODE && s.pool.InRange()
      && byAdmin && cpiOk && 0 < amount <= s.pool.NetValue()
  {
    ReachableInv(s);
    if s.pool.mode == INSURANCE_MODE {
      CeilingMeaning(s.pool);
      FlushGoesThroughIff(s, byAdmin, amount, cpiOk);
    }
  }

  lemma FlushGoesThroughIff(s: State, byAdmin: bool, amount: u64, cpiOk: bool)
    requires s.pool.mode == INSURANCE_MODE
    requires var ceiling := s.pool.FlushCeiling();
      ceiling.Some? ==> ceiling.value <= s.vault && s.pool.flushed + ceiling.value <= U64_MAX
    ensures DoFlush(s, byAdmin, amount, cpiOk).Ok? <==>
      && s.pool.initialized && byAdmin && cpiOk && s.pool.FlushCeiling().Some?
      && 0 < amount <= s.pool.FlushCeiling().value
  {
  }

  lemma CeilingMeaning(p: Pool)
    requires p.NetValue() >= 0 && p.mode == INSURANCE_MODE
    ensures p.FlushCeiling() == if p.InRange() then Some(p.NetValue()) else None
  {
  }

  // ------------------------------------------------------ pools never brick

  /** In range, a trading pool covers its supply, every deposit has a defined mint
      and every burn within the supply pays at least one unit per LP. */
  lemma TradingPoolsNeverBrick(s: State)
    requires Reachable(s) && s.pool.mode == TRADING_MODE && s.pool.InRange()
    ensures s.pool.NetValue() >= s.pool.lpSupply
    ensures s.pool.NetValue() == 0 <==> s.pool.lpSupply == 0
    ensures forall amount: u64 ::
              s.pool.CalcLpForDeposit(amount).Some? && s.pool.CalcLpForDeposit(amount).value <= amount
    ensures forall lp: u64 | 0 < lp <= s.pool.lpSupply ::
              s.pool.CalcCollateralForWithdraw(lp).Some? && s.pool.CalcCollateralForWithdraw(lp).value >= lp
  {
    ReachableInv(s);
    forall amount: u64
      ensures s.pool.CalcLpForDeposit(amount).Some? && s.pool.CalcLpForDeposit(amount).value <= amount
    {
      MintAlwaysDefined(s, amount);
    }
    forall lp: u64 | 0 < lp <= s.pool.lpSupply
      ensures s.pool.CalcCollateralForWithdraw(lp).Some? && s.pool.CalcCollateralForWithdraw(lp).value >= lp
    {
      BurnInRange(s.pool, lp);
      ShareLaws.BurnKeepsCover(s.pool.lpSupply, s.pool.NetValue(), lp, lp * s.pool.NetValue() / s.pool.lpSupply);
    }
  }

  lemma MintAlwaysDefined(s: State, amount: u64)
    requires Books(s) && s.pool.mode == TRADING_MODE && s.pool.InRange()
    ensures s.pool.CalcLpForDeposit(amount)
         == Some(if s.pool.lpSupply == 0 then amount else amount * s.pool.lpSupply / s.pool.NetValue())
    ensures s.pool.CalcLpForDeposit(amount).value <= amount
  {
    ValueMeaning(s.pool);
    if s.pool.lpSupply > 0 {
      VaultMath.MintMeaning(s.pool.lpSupply, s.pool.NetValue(), amount);
      ShareLaws.MintKeepsCover(s.pool.lpSupply, s.pool.NetValue(), amount,
                               amount * s.pool.lpSupply / s.pool.NetValue());
    }
  }

  lemma BurnInRange(p: Pool, lp: u64)
    requires p.NetValue() >= 0 && p.InRange() && lp <= p.lpSupply && p.lpSupply > 0
    ensures p.CalcCollateralForWithdraw(lp) == Some(lp * p.NetValue() / p.lpSupply)
    ensures 0 <= lp * p.NetValue() / p.lpSupply <= p.NetValue()
  {
    ValueMeaning(p);
    ShareLaws.BurnWithinSupply(p.lpSupply, p.NetValue(), lp);
    ShareLaws.BurnKeepsPrice(p.lpSupply, p.NetValue(), lp, lp * p.NetValue() / p.lpSupply);
  }

  /** The mint an amount gets is defined and positive. Out of range an empty pool
      still mints one to one, whatever it holds. */
  predicate Mintable(p: Pool, amount: u64) {
    if p.lpSupply == 0 then p.NetValue() == 0 || !p.InRange()
    else
      && p.InRange() && 0 < p.NetValue() <= amount * p.lpSupply
      && p.lpSupply + amount * p.lpSupply / p.NetValue() <= U64_MAX
  }

  /** A cap of zero is no cap; otherwise it limits the current value, which counts as
      zero out of range. */
  predicate CapAllows(p: Pool, amount: u64) {
    p.cap == 0 || (if p.InRange() then p.NetValue() else 0) + amount <= p.cap
  }

  /** What the vault and the lifetime counter still have room for. */
  predicate RoomFor(s: State, amount: u64) {
    s.vault + amount <= U64_MAX && s.pool.deposited + amount <= U64_MAX
  }

  /** Which deposits a pool takes, in either mode and in every reachable state: the
      records and the LP tokens never add a reason to refuse. */
  lemma DepositAcceptedIff(s: State, user: Pubkey, lpTo: Pubkey, amount: u64, funded: bool)
    requires Reachable(s)
    ensures DoDeposit(s, user, lpTo, amount, funded).Ok? <==>
      && s.pool.initialized && amount > 0 && funded && !s.pool.header.resolved && CapAllows(s.pool, amount)
      && RoomFor(s, amount) && Mintable(s.pool, amount)
  {
    ReachableInv(s);
    GateAcceptsIff(s, amount);
    if amount > 0 {
      MintableIff(s.pool, amount);
    }
    var lp := s.pool.CalcLpForDeposit(amount);
    if lp.Some? {
      TotalCovers(s.lpHeld, lpTo);
      PositionWithinSupply(s, user);
      SettleAcceptsIff(s, user, lpTo, amount, funded, lp.value);
    }
  }

  lemma GateAcceptsIff(s: State, amount: u64)
    requires HeaderSound(s) && s.pool.NetValue() >= 0
    ensures DepositGate(s, amount).Ok? <==>
      && s.pool.initialized && amount > 0 && !s.pool.header.resolved && CapAllows(s.pool, amount)
      && s.pool.CalcLpForDeposit(amount).UnwrapOr(0) > 0
    ensures DepositGate(s, amount).Ok? ==> s.pool.CalcLpForDeposit(amount) == Some(DepositGate(s, amount).value)
  {
    ValueMeaning(s.pool);
  }

  lemma MintableIff(p: Pool, amount: u64)
    requires p.NetValue() >= 0 && amount > 0
    ensures var lp := p.CalcLpForDeposit(amount).UnwrapOr(0);
      Mintable(p, amount) <==> lp > 0 && p.lpSupply + lp <= U64_MAX
  {
    ValueMeaning(p);
    if p.lpSupply > 0 && p.InRange() && p.NetValue() > 0 {
      VaultMath.MintMeaning(p.lpSupply, p.NetValue(), amount);
      QuotientPositiveIff(amount, p.lpSupply, p.NetValue());
    }
  }

  lemma SettleAcceptsIff(s: State, user: Pubkey, lpTo: Pubkey, amount: u64, funded: bool, lp: u64)
    requires Held(s.lpHeld, lpTo) <= s.mintSupply <= s.pool.lpSupply
    requires PositionOf(s, user).lp <= s.pool.lpSupply
    ensures SettleDeposit(s, user, lpTo, amount, funded, lp).Ok? <==>
      funded && RoomFor(s, amount) && s.pool.lpSupply + lp <= U64_MAX
  {
  }

  /** In a trading pool the mint always fits, so only the deposit's worth is left. */
  lemma TradingDepositAcceptedIff(s: State, user: Pubkey, lpTo: Pubkey, amount: u64, funded: bool)
    requires Reachable(s) && s.pool.mode == TRADING_MODE
    ensures DoDeposit(s, user, lpTo, amount, funded).Ok? <==>
      && amount > 0 && funded && !s.pool.header.resolved && CapAllows(s.pool, amount) && RoomFor(s, amount)
      && (s.pool.lpSupply == 0 || (s.pool.InRange() && amount * s.pool.lpSupply >= s.pool.NetValue()))
  {
    ReachableInv(s);
    DepositAcceptedIff(s, user, lpTo, amount, funded);
    if s.vault + amount <= U64_MAX {
      CoveredMintFits(s.pool, amount);
    }
  }

  lemma CoveredMintFits(p: Pool, amount: u64)
    requires p.lpSupply <= p.NetValue() && p.NetValue() + amount <= U64_MAX
    requires p.lpSupply == 0 ==> p.NetValue() == 0
    ensures Mintable(p, amount) <==> p.lpSupply == 0 || (p.InRange() && amount * p.lpSupply >= p.NetValue())
  {
    if p.lpSupply > 0 {
      CoveredQuotient(p.lpSupply, p.NetValue(), amount);
    }
  }

  lemma CoveredQuotient(supply: nat, value: nat, amount: nat)
    requires 0 < supply <= value
    ensures amount * supply / value <= amount
  {
    ShareLaws.MintKeepsCover(supply, value, amount, amount * supply / value);
  }

  lemma QuotientPositiveIff(a: nat, b: nat, d: nat)
    requires d > 0
    ensures a * b / d > 0 <==> a * b >= d
  {
    FloorBounds(a * b, d);
    if a * b >= d {
      FloorAtLeast(a * b, d, 1);
    }
  }

  /** In range, the vault, the mint and the counters never add a reason to refuse a
      withdrawal. */
  lemma WithdrawAccepts(s: State, user: Pubkey, lp: u64)
    requires Inv(s) && s.pool.InRange()
    ensures DoWithdraw(s, user, lp).Ok? <==>
      && user in s.records && 0 < lp <= s.records[user].lp
      && UnlockSlot(s.records[user], s.pool.cooldown) <= s.slot
      && lp <= Held(s.lpHeld, user)
      && s.pool.CalcCollateralForWithdraw(lp).UnwrapOr(0) > 0
      && HwmCheck(s.pool, s.epoch, s.pool.CalcCollateralForWithdraw(lp).UnwrapOr(0)).Ok?
  {
    if user in s.records && 0 < lp <= s.records[user].lp {
      PositionWithinSupply(s, user);
      TotalCovers(s.lpHeld, user);
      BurnInRange(s.pool, lp);
    }
  }

  // ------------------------------------------------- when the totals run out

  lemma InflowsGrow(s: State, step: Step)
    requires Inv(s)
    ensures Next(s, step).pool.Inflows() >= s.pool.Inflows()
  {
    var r := Apply(s, step);
    if r.Ok? {
      match step {
        case Deposit(user, lpTo, amount, funded) =>
          DepositEffect(s, user, lpTo, amount, funded, r.value);
          SettledDeposit(s, user, lpTo, amount, funded, Minted(s, r.value), r.value);
        case Withdraw(user, lp) => WithdrawEffect(s, user, lp, r.value);
        case _ => OtherInflowsGrow(s, step);
      }
    }
  }

  lemma OtherInflowsGrow(s: State, step: Step)
    requires ModesSeparate(s) && !step.Deposit? && !step.Withdraw?
    ensures Next(s, step).pool.Inflows() >= s.pool.Inflows()
  {
  }

  lemma {:induction false} RunInflowsGrow(s: State, steps: seq<Step>)
    requires Inv(s)
    ensures Run(s, steps).pool.Inflows() >= s.pool.Inflows()
    decreases steps
  {
    if steps != [] {
      InflowsGrow(s, steps[0]);
      StepKeeps(s, steps[0]);
      RunInflowsGrow(Next(s, steps[0]), steps[1..]);
    }
  }

  /** Once the lifetime totals leave the range, no withdrawal, flush or (with LP
      outstanding) crank succeeds in any continuation. */
  lemma OutOfRangeFreezes(s: State, steps: seq<Step>, user: Pubkey, lp: u64, byAdmin: bool, amount: u64, cpiOk: bool)
    requires Reachable(s) && !s.pool.InRange()
    ensures var t := Run(s, steps);
      && DoWithdraw(t, user, lp).Err?
      && DoFlush(t, byAdmin, amount, cpiOk).Err?
      && (t.pool.lpSupply > 0 ==> DoAccrueFees(t).Err?)
  {
    ReachableInv(s);
    RunKeeps(s, steps);
    RunInflowsGrow(s, steps);
    var t := Run(s, steps);
    ValueMeaning(t.pool);
  }

  /** Out of range only an insurance pool without LP still takes deposits, one LP per
      unit, and nothing deposited there can ever be withdrawn. */
  lemma OutOfRangeDepositIsLocked(s: State, depositor: Pubkey, lpTo: Pubkey, amount: u64, funded: bool,
                                  steps: seq<Step>, user: Pubkey, lp: u64)
    requires Reachable(s) && !s.pool.InRange()
    ensures var r := DoDeposit(s, depositor, lpTo, amount, funded);
      r.Ok? ==>
        && s.pool.mode == INSURANCE_MODE && s.pool.lpSupply == 0 && Minted(s, r.value) == amount
        && DoWithdraw(Run(r.value, steps), user, lp).Err?
  {
    ReachableInv(s);
    var r := DoDeposit(s, depositor, lpTo, amount, funded);
    if r.Ok? {
      DepositEffect(s, depositor, lpTo, amount, funded, r.value);
      MintEffect(s, amount, Minted(s, r.value));
      var step := Deposit(depositor, lpTo, amount, funded);
      InflowsGrow(s, step);
      ReachableNext(s, step);
      OutOfRangeFreezes(r.value, steps, user, lp, true, 0, true);
    }
  }
}
