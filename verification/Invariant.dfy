/** What every reachable state of the vault satisfies, and the proof that each
    step keeps it. Nothing here assumes the lifetime counters stay in range. */
module Invariant {
  import opened Machine
  import opened Reserved
  import opened PoolState
  import opened VaultMachine
  import opened Totals
  import VaultMath
  import ShareLaws
  import CooldownLaws

  /** The records add up to the pool's LP supply, over all users. */
  ghost predicate RecordsMatch(s: State) {
    Total(Positions(s.records)) == s.pool.lpSupply
  }

  /** The mint's supply is what holders have; burns outside the program can only
      make it smaller than the recorded supply. */
  ghost predicate TokensMatch(s: State) {
    Total(s.lpHeld) == s.mintSupply <= s.pool.lpSupply
  }

  /** Tokens in the vault are exactly what the counters and the donations explain. */
  predicate VaultMatches(s: State) {
    && s.vault + s.pool.withdrawn + s.pool.flushed == s.pool.deposited + s.pool.returned + s.donated
    && s.pool.NetValue() >= 0
  }

  predicate ModesSeparate(s: State) {
    && (s.pool.mode == INSURANCE_MODE || s.pool.mode == TRADING_MODE)
    && (s.pool.mode == TRADING_MODE ==> s.pool.flushed == 0 && s.pool.returned == 0)
    && (s.pool.mode == INSURANCE_MODE ==> s.pool.fees == 0 && s.pool.header.offset == 0)
    && (!s.pool.initialized ==>
          && s.pool.mode == INSURANCE_MODE && s.donated == 0 && s.pool.lpSupply == 0
          && s.pool.deposited == 0 && s.pool.withdrawn == 0 && s.pool.flushed == 0 && s.pool.returned == 0)
  }

  /** Trading pools: booked fees and the offset come out of the donations, and the
      value covers the supply. Without LP the value is zero and the totals in range. */
  predicate TradingCovered(s: State) {
    s.pool.mode == TRADING_MODE ==>
      && s.pool.fees + s.pool.header.offset <= s.donated
      && s.pool.NetValue() >= s.pool.lpSupply
      && (s.pool.lpSupply == 0 ==> s.pool.NetValue() == 0 && s.pool.InRange())
  }

  predicate SlotsPast(s: State) {
    forall u | u in s.records :: s.records[u].slot <= s.slot
  }

  predicate HeaderSound(s: State) {
    && s.pool.header.DiscriminatorOk()
    && (!s.pool.initialized ==>
          && !s.pool.header.resolved && s.pool.header.floorBps == 0
          && s.pool.header.highWater == 0 && s.pool.header.lastEpoch == 0)
    && (s.pool.header.hwmEnabled ==> s.pool.initialized && 1 <= s.pool.header.floorBps <= BPS_DENOMINATOR)
  }

  /** The part of the invariant that sums over users. */
  ghost predicate Sums(s: State) {
    RecordsMatch(s) && TokensMatch(s)
  }

  /** The part that looks at the pool and the vault. */
  predicate Books(s: State) {
    && VaultMatches(s) && ModesSeparate(s) && TradingCovered(s) && SlotsPast(s) && HeaderSound(s)
  }

  ghost predicate Inv(s: State) {
    Sums(s) && Books(s)
  }

  lemma SameSums(s: State, s': State)
    requires Sums(s)
    requires s'.records == s.records && s'.lpHeld == s.lpHeld
    requires s'.mintSupply == s.mintSupply && s'.pool.lpSupply == s.pool.lpSupply
    ensures Sums(s')
  {
  }

  /** No recorded position exceeds the supply. */
  lemma PositionWithinSupply(s: State, user: Pubkey)
    requires RecordsMatch(s)
    ensures PositionOf(s, user).lp <= s.pool.lpSupply
  {
    TotalCovers(Positions(s.records), user);
  }

  // -------------------------------------------------------- effect of a deposit

  /** LP minted by an accepted deposit. */
  function Minted(s: State, s': State): int { s'.pool.lpSupply - s.pool.lpSupply }

  /** Collateral paid by an accepted withdrawal. */
  function Paid(s: State, s': State): int { s'.pool.withdrawn - s.pool.withdrawn }

  lemma DepositEffect(s: State, user: Pubkey, lpTo: Pubkey, amount: u64, funded: bool, s': State)
    requires DoDeposit(s, user, lpTo, amount, funded) == Ok(s')
    ensures Minted(s, s') > 0 && amount > 0 && s.pool.initialized && !s.pool.header.resolved
    ensures s.pool.CalcLpForDeposit(amount) == Some(Minted(s, s'))
    ensures SettleDeposit(s, user, lpTo, amount, funded, Minted(s, s')) == Ok(s')
  {
    SettledDeposit(s, user, lpTo, amount, funded, DepositGate(s, amount).value, s');
  }

  /** What the bookkeeping of a deposit leaves: the pool's totals and mark, and the
      user's record with its blended slot. */
  predicate DepositBooked(s: State, user: Pubkey, amount: u64, lp: u64, s': State) {
    && lp == Minted(s, s') && s.pool.deposited + amount <= U64_MAX
    && var totals := s.pool.(deposited := s.pool.deposited + amount, lpSupply := s'.pool.lpSupply);
       var prior := PositionOf(s, user);
       && s'.pool == totals.(header := s'.pool.header)
       && s'.pool.header == HeaderAfterDeposit(totals, s.epoch)
       && s'.pool.header == s.pool.header.(highWater := s'.pool.header.highWater,
                                           lastEpoch := s'.pool.header.lastEpoch)
       && prior.lp + lp <= U64_MAX
       && s'.records == s.records[user :=
            Position(VaultMath.WeightedDepositSlot(prior.lp, prior.slot, lp, s.slot, s.pool.cooldown), prior.lp + lp)]
       && s'.slot == s.slot && s'.epoch == s.epoch && s'.donated == s.donated
  }

  lemma SettledDeposit(s: State, user: Pubkey, lpTo: Pubkey, amount: u64, funded: bool, lp: u64, s': State)
    requires SettleDeposit(s, user, lpTo, amount, funded, lp) == Ok(s')
    ensures DepositBooked(s, user, amount, lp, s')
    ensures s'.lpHeld == s.lpHeld[lpTo := Held(s.lpHeld, lpTo) + lp]
    ensures s'.mintSupply == s.mintSupply + lp && s'.vault == s.vault + amount
  {
    var s1 := TakeDeposit(s, lpTo, amount, funded, lp).value;
    BookedDeposit(s1, user, amount, lp, s');
  }

  lemma BookedDeposit(s: State, user: Pubkey, amount: u64, lp: u64, s': State)
    requires BookDeposit(s, user, amount, lp) == Ok(s')
    ensures DepositBooked(s, user, amount, lp, s')
    ensures s'.lpHeld == s.lpHeld && s'.mintSupply == s.mintSupply && s'.vault == s.vault
  {
  }

  /** How the mint relates supply and value, free of the checked arithmetic. With
      the counters out of range only an empty pool still accepts deposits. */
  lemma MintEffect(s: State, amount: u64, lp: u64)
    requires s.pool.NetValue() >= 0
    requires s.pool.CalcLpForDeposit(amount) == Some(lp)
    ensures s.pool.lpSupply == 0 ==> lp == amount && (s.pool.InRange() ==> s.pool.NetValue() == 0)
    ensures s.pool.lpSupply > 0 ==>
      && s.pool.InRange() && s.pool.NetValue() > 0
      && lp == amount * s.pool.lpSupply / s.pool.NetValue()
  {
    ValueMeaning(s.pool);
    if s.pool.lpSupply > 0 && s.pool.InRange() && s.pool.NetValue() > 0 {
      VaultMath.MintMeaning(s.pool.lpSupply, s.pool.NetValue(), amount);
    }
  }

  lemma DepositKeeps(s: State, user: Pubkey, lpTo: Pubkey, amount: u64, funded: bool, s': State)
    requires Inv(s) && DoDeposit(s, user, lpTo, amount, funded) == Ok(s')
    ensures Inv(s')
  {
    DepositEffect(s, user, lpTo, amount, funded, s');
    SettledDeposit(s, user, lpTo, amount, funded, Minted(s, s'), s');
    DepositKeepsSums(s, user, lpTo, Minted(s, s'), s');
    DepositKeepsBooks(s, user, lpTo, amount, funded, s');
  }

  lemma DepositKeepsBooks(s: State, user: Pubkey, lpTo: Pubkey, amount: u64, funded: bool, s': State)
    requires Books(s) && DoDeposit(s, user, lpTo, amount, funded) == Ok(s')
    ensures Books(s')
  {
    DepositEffect(s, user, lpTo, amount, funded, s');
    var lp := Minted(s, s');
    SettledDeposit(s, user, lpTo, amount, funded, lp, s');
    MintEffect(s, amount, lp);
    if s.pool.lpSupply > 0 && s.pool.mode == TRADING_MODE {
      ShareLaws.MintKeepsCover(s.pool.lpSupply, s.pool.NetValue(), amount, lp);
    }
    var prior := PositionOf(s, user);
    CooldownLaws.TopUpWaitsItsShare(prior.lp, prior.slot, lp, s.slot, s.pool.cooldown);
    assert SlotsPast(s');
  }

  lemma DepositKeepsSums(s: State, user: Pubkey, lpTo: Pubkey, lp: u64, s': State)
    requires Sums(s)
    requires user in s'.records && s'.records == s.records[user := s'.records[user]]
    requires s'.records[user].lp == PositionOf(s, user).lp + lp
    requires Held(s.lpHeld, lpTo) + lp <= U64_MAX
    requires s'.lpHeld == s.lpHeld[lpTo := Held(s.lpHeld, lpTo) + lp]
    requires s'.pool.lpSupply == s.pool.lpSupply + lp && s'.mintSupply == s.mintSupply + lp
    ensures Sums(s')
  {
    PositionsUpdate(s.records, user, s'.records[user]);
    TotalUpdate(Positions(s.records), user, s'.records[user].lp);
    TotalUpdate(s.lpHeld, lpTo, Held(s.lpHeld, lpTo) + lp);
  }

  // ----------------------------------------------------- effect of a withdrawal

  lemma WithdrawEffect(s: State, user: Pubkey, lp: u64, s': State)
    requires DoWithdraw(s, user, lp) == Ok(s')
    ensures lp > 0 && s.pool.initialized && user in s.records && lp <= s.records[user].lp
    ensures UnlockSlot(s.records[user], s.pool.cooldown) <= s.slot
    ensures Paid(s, s') > 0 && s.pool.CalcCollateralForWithdraw(lp) == Some(Paid(s, s'))
    ensures HwmCheck(s.pool, s.epoch, Paid(s, s')) == Ok(s'.pool.header)
    ensures lp <= s.pool.lpSupply && lp <= Held(s.lpHeld, user) && lp <= s.mintSupply && Paid(s, s') <= s.vault
    ensures s'.pool == s.pool.(withdrawn := s'.pool.withdrawn, lpSupply := s.pool.lpSupply - lp,
                               header := s'.pool.header)
    ensures s'.records == s.records[user := s.records[user].(lp := s.records[user].lp - lp)]
    ensures s'.lpHeld == s.lpHeld[user := Held(s.lpHeld, user) - lp]
    ensures s'.mintSupply == s.mintSupply - lp && s'.vault == s.vault - Paid(s, s')
    ensures s'.slot == s.slot && s'.epoch == s.epoch && s'.donated == s.donated
  {
  }

  lemma BurnEffect(p: Pool, lp: u64, paid: u64)
    requires p.NetValue() >= 0
    requires p.CalcCollateralForWithdraw(lp) == Some(paid)
    ensures p.InRange() && p.lpSupply > 0 && paid == lp * p.NetValue() / p.lpSupply
  {
    ValueMeaning(p);
    VaultMath.BurnMeaning(p.lpSupply, p.NetValue(), lp);
  }

  lemma HwmCheckKeepsHeader(p: Pool, epoch: u64, paid: u64, h: Header)
    requires HwmCheck(p, epoch, paid) == Ok(h)
    ensures h == p.header.(highWater := h.highWater, lastEpoch := h.lastEpoch)
  {
  }

  lemma WithdrawKeeps(s: State, user: Pubkey, lp: u64, s': State)
    requires Inv(s) && DoWithdraw(s, user, lp) == Ok(s')
    ensures Inv(s')
  {
    WithdrawEffect(s, user, lp, s');
    WithdrawKeepsSums(s, user, lp, s');
    WithdrawKeepsBooks(s, user, lp, s');
  }

  lemma WithdrawKeepsBooks(s: State, user: Pubkey, lp: u64, s': State)
    requires Books(s) && DoWithdraw(s, user, lp) == Ok(s')
    ensures Books(s')
  {
    WithdrawEffect(s, user, lp, s');
    var paid := Paid(s, s');
    BurnEffect(s.pool, lp, paid);
    HwmCheckKeepsHeader(s.pool, s.epoch, paid, s'.pool.header);
    ShareLaws.BurnKeepsPrice(s.pool.lpSupply, s.pool.NetValue(), lp, paid);
    if s.pool.mode == TRADING_MODE {
      ShareLaws.BurnKeepsCover(s.pool.lpSupply, s.pool.NetValue(), lp, paid);
    }
  }

  lemma WithdrawKeepsSums(s: State, user: Pubkey, lp: u64, s': State)
    requires Sums(s)
    requires user in s.records && lp <= s.records[user].lp && lp <= Held(s.lpHeld, user)
    requires s'.records == s.records[user := s.records[user].(lp := s.records[user].lp - lp)]
    requires s'.lpHeld == s.lpHeld[user := Held(s.lpHeld, user) - lp]
    requires s'.pool.lpSupply == s.pool.lpSupply - lp && s'.mintSupply == s.mintSupply - lp
    ensures Sums(s')
  {
    PositionsUpdate(s.records, user, s'.records[user]);
    TotalUpdate(Positions(s.records), user, s'.records[user].lp);
    TotalUpdate(s.lpHeld, user, Held(s.lpHeld, user) - lp);
  }

  // ------------------------------------------------------------ the other steps

  lemma TransferLpKeeps(s: State, from: Pubkey, to: Pubkey, amount: u64, s': State)
    requires Inv(s) && DoTransferLp(s, from, to, amount) == Ok(s')
    ensures Inv(s')
  {
    var taken := s.lpHeld[from := Held(s.lpHeld, from) - amount];
    TransferKeepsTotal(s.lpHeld, taken, from, to, amount);
    SameBooks(s, s');
  }

  lemma TransferKeepsTotal(m: map<Pubkey, u64>, taken: map<Pubkey, u64>, from: Pubkey, to: Pubkey, amount: u64)
    requires amount <= Held(m, from) && taken == m[from := Held(m, from) - amount]
    requires Held(taken, to) + amount <= U64_MAX
    ensures Total(taken[to := Held(taken, to) + amount]) == Total(m)
  {
    TotalUpdate(m, from, Held(m, from) - amount);
    TotalUpdate(taken, to, Held(taken, to) + amount);
  }

  lemma BurnLpKeeps(s: State, from: Pubkey, amount: u64, s': State)
    requires Inv(s) && DoBurnLp(s, from, amount) == Ok(s')
    ensures Inv(s')
  {
    TotalUpdate(s.lpHeld, from, Held(s.lpHeld, from) - amount);
    SameBooks(s, s');
  }

  lemma SameBooks(s: State, s': State)
    requires Books(s)
    requires s'.pool == s.pool && s'.records == s.records && s'.vault == s.vault
    requires s'.slot == s.slot && s'.donated == s.donated
    ensures Books(s')
  {
  }

  /** Steps that touch neither the records nor the LP tokens. */
  predicate Quiet(step: Step) {
    !step.Deposit? && !step.Withdraw? && !step.TransferLp? && !step.BurnLp?
  }

  /** Only deposits and withdrawals write records, and the clock never goes back. */
  lemma OthersLeaveRecords(s: State, step: Step)
    requires !step.Deposit? && !step.Withdraw?
    ensures Next(s, step).records == s.records && Next(s, step).slot >= s.slot
  {
  }

  lemma QuietKeepsHoldings(s: State, step: Step, s': State)
    requires Quiet(step) && Apply(s, step) == Ok(s')
    requires ModesSeparate(s)
    ensures s'.records == s.records && s'.lpHeld == s.lpHeld
    ensures s'.mintSupply == s.mintSupply && s'.pool.lpSupply == s.pool.lpSupply
  {
  }

  lemma InitKeepsBooks(s: State, cooldown: u64, cap: u64, cpiOk: bool, s': State)
    requires Books(s) && DoInit(s, cooldown, cap, cpiOk) == Ok(s')
    ensures Books(s')
  {
  }

  lemma InitTradingKeepsBooks(s: State, cooldown: u64, cap: u64, cpiOk: bool, s': State)
    requires Books(s) && DoInitTrading(s, cooldown, cap, cpiOk) == Ok(s')
    ensures Books(s')
  {
    var s1 := DoInit(s, cooldown, cap, cpiOk).value;
    InitKeepsBooks(s, cooldown, cap, cpiOk, s1);
    assert s1.pool.fees == 0 && s1.pool.deposited == 0 && s1.pool.withdrawn == 0;
    assert s1.pool.returned == 0 && s1.pool.flushed == 0 && s1.pool.lpSupply == 0;
    assert s'.pool == s1.pool.(mode := TRADING_MODE);
    assert s'.pool.NetValue() == 0;
  }

  lemma FlushKeepsBooks(s: State, byAdmin: bool, amount: u64, cpiOk: bool, s': State)
    requires Books(s) && DoFlush(s, byAdmin, amount, cpiOk) == Ok(s')
    ensures Books(s')
  {
  }

  lemma ReturnKeepsBooks(s: State, byAdmin: bool, amount: u64, cpiOk: bool, s': State)
    requires Books(s) && DoWithdrawInsurance(s, byAdmin, amount, cpiOk) == Ok(s')
    ensures Books(s')
  {
  }

  lemma CrankKeepsBooks(s: State, s': State)
    requires Books(s) && DoAccrueFees(s) == Ok(s')
    ensures Books(s')
  {
  }

  lemma ConfigKeepsBooks(s: State, byAdmin: bool, cooldown: Option<u64>, cap: Option<u64>, s': State)
    requires Books(s) && DoUpdateConfig(s, byAdmin, cooldown, cap) == Ok(s')
    ensures Books(s')
  {
  }

  lemma HwmConfigKeepsBooks(s: State, byAdmin: bool, enabled: bool, bps: u16, s': State)
    requires Books(s) && DoSetHwmConfig(s, byAdmin, enabled, bps) == Ok(s')
    ensures Books(s')
  {
  }

  lemma ResolveKeepsBooks(s: State, byAdmin: bool, cpiOk: bool, s': State)
    requires Books(s) && DoResolve(s, byAdmin, cpiOk) == Ok(s')
    ensures Books(s')
  {
  }

  lemma QuietKeepsBooks(s: State, step: Step, s': State)
    requires Books(s) && Quiet(step) && Apply(s, step) == Ok(s')
    ensures Books(s')
  {
    match step
    case InitPool(cooldown, cap, cpiOk) => InitKeepsBooks(s, cooldown, cap, cpiOk, s');
    case InitTradingPool(cooldown, cap, cpiOk) => InitTradingKeepsBooks(s, cooldown, cap, cpiOk, s');
    case FlushToInsurance(byAdmin, amount, cpiOk) => FlushKeepsBooks(s, byAdmin, amount, cpiOk, s');
    case WithdrawInsurance(byAdmin, amount, cpiOk) => ReturnKeepsBooks(s, byAdmin, amount, cpiOk, s');
    case AccrueFees => CrankKeepsBooks(s, s');
    case AdvanceClock(_, _) =>
    case Donate(_) =>
    case UpdateConfig(byAdmin, cooldown, cap) => ConfigKeepsBooks(s, byAdmin, cooldown, cap, s');
    case SetHwmConfig(byAdmin, enabled, bps) => HwmConfigKeepsBooks(s, byAdmin, enabled, bps, s');
    case ResolveMarket(byAdmin, cpiOk) => ResolveKeepsBooks(s, byAdmin, cpiOk, s');
  }

  lemma StepKeeps(s: State, step: Step)
    requires Inv(s)
    ensures Inv(Next(s, step))
  {
    var r := Apply(s, step);
    if r.Ok? {
      match step {
        case Deposit(user, lpTo, amount, funded) => DepositKeeps(s, user, lpTo, amount, funded, r.value);
        case Withdraw(user, lp) => WithdrawKeeps(s, user, lp, r.value);
        case TransferLp(from, to, amount) => TransferLpKeeps(s, from, to, amount, r.value);
        case BurnLp(from, amount) => BurnLpKeeps(s, from, amount, r.value);
        case _ =>
          QuietKeepsHoldings(s, step, r.value);
          SameSums(s, r.value);
          QuietKeepsBooks(s, step, r.value);
      }
    }
  }

  lemma {:induction false} RunKeeps(s: State, steps: seq<Step>)
    requires Inv(s)
    ensures Inv(Run(s, steps))
    decreases steps
  {
    if steps != [] {
      StepKeeps(s, steps[0]);
      RunKeeps(Next(s, steps[0]), steps[1..]);
    }
  }

  lemma InitialInv(slot: u64, epoch: u64)
    ensures Inv(Initial(slot, epoch))
  {
    TotalOfZeroes(Positions(map[]));
  }

  lemma ReachableInv(s: State)
    requires Reachable(s)
    ensures Inv(s)
  {
    var slot: u64, epoch: u64, steps: seq<Step> :| s == Run(Initial(slot, epoch), steps);
    InitialInv(slot, epoch);
    RunKeeps(Initial(slot, epoch), steps);
  }

  lemma {:induction false} RunAppend(s: State, steps: seq<Step>, more: seq<Step>)
    ensures Run(s, steps + more) == Run(Run(s, steps), more)
    decreases steps
  {
    if steps == [] {
      assert steps + more == more;
    } else {
      assert (steps + more)[1..] == steps[1..] + more;
      RunAppend(Next(s, steps[0]), steps[1..], more);
    }
  }

  lemma ReachableRun(s: State, steps: seq<Step>)
    requires Reachable(s)
    ensures Reachable(Run(s, steps))
  {
    var slot: u64, epoch: u64, before: seq<Step> :| s == Run(Initial(slot, epoch), before);
    RunAppend(Initial(slot, epoch), before, steps);
  }

  lemma ReachableNext(s: State, step: Step)
    requires Reachable(s)
    ensures Reachable(Next(s, step))
  {
    ReachableRun(s, [step]);
    RunOne(s, step);
  }

  lemma RunOne(s: State, step: Step)
    ensures Run(s, [step]) == Next(s, step)
  {
    assert [step][1..] == [];
  }
}
