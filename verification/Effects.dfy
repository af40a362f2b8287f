/** What each instruction does, stated on the reachable states and without the
    handlers' own arithmetic: when it is accepted, the whole state it leaves, and the
    error of each refusal. */
module Effects {
  import opened Machine
  import opened Rounding
  import opened Reserved
  import opened PoolState
  import opened VaultMachine
  import opened Invariant
  import opened Solvency
  import opened Drawdown
  import VaultMath
  import CooldownLaws

  predicate Refused(r: Result<State, Error>, error: Error) {
    r.Err? && r.error == error
  }

  // ------------------------------------------------------------- initialisation

  /** A pool as initialisation leaves it: configured, and zero otherwise. */
  predicate NewPool(p: Pool, mode: u8, cooldown: u64, cap: u64) {
    && p.initialized && p.mode == mode && p.cooldown == cooldown && p.cap == cap
    && p.deposited == 0 && p.lpSupply == 0 && p.flushed == 0 && p.returned == 0 && p.withdrawn == 0 && p.fees == 0
    && p.header.tag == StakePoolV1 && p.header.version == CURRENT_VERSION
    && !p.header.resolved && !p.header.hwmEnabled
    && p.header.floorBps == 0 && p.header.highWater == 0 && p.header.lastEpoch == 0 && p.header.offset == 0
  }

  function InitStep(trading: bool, cooldown: u64, cap: u64, cpiOk: bool): Step {
    if trading then InitTradingPool(cooldown, cap, cpiOk) else InitPool(cooldown, cap, cpiOk)
  }

  /** A pool stores the cooldown and the cap it was given, and is zero otherwise. */
  lemma InitOutcome(s: State, trading: bool, cooldown: u64, cap: u64, cpiOk: bool, s': State)
    requires Reachable(s) && Apply(s, InitStep(trading, cooldown, cap, cpiOk)) == Ok(s')
    ensures s' == s.(pool := s'.pool)
    ensures NewPool(s'.pool, if trading then TRADING_MODE else INSURANCE_MODE, cooldown, cap)
  {
    ReachableBasics(s);
    BlankBecomesNew(s, trading, cooldown, cap, cpiOk, s');
  }

  /** What no step writes before initialisation. */
  predicate Blank(p: Pool) {
    && p.mode == INSURANCE_MODE && p.fees == 0 && !p.header.resolved && !p.header.hwmEnabled
    && p.header.floorBps == 0 && p.header.highWater == 0 && p.header.lastEpoch == 0 && p.header.offset == 0
  }

  lemma ReachableBasics(s: State)
    requires Reachable(s)
    ensures s.pool.header.DiscriminatorOk() && s.pool.NetValue() >= 0
    ensures !s.pool.initialized ==> Blank(s.pool)
    ensures s.pool.mode == INSURANCE_MODE || (s.pool.mode == TRADING_MODE && s.pool.initialized)
    ensures forall user :: PositionOf(s, user).lp <= s.pool.lpSupply && PositionOf(s, user).slot <= s.slot
  {
    ReachableInv(s);
    forall user: Pubkey
      ensures PositionOf(s, user).lp <= s.pool.lpSupply
    {
      PositionWithinSupply(s, user);
    }
  }

  lemma BlankBecomesNew(s: State, trading: bool, cooldown: u64, cap: u64, cpiOk: bool, s': State)
    requires !s.pool.initialized ==> Blank(s.pool)
    requires Apply(s, InitStep(trading, cooldown, cap, cpiOk)) == Ok(s')
    ensures s' == s.(pool := s'.pool)
    ensures NewPool(s'.pool, if trading then TRADING_MODE else INSURANCE_MODE, cooldown, cap)
  {
    assert DoInit(s, cooldown, cap, cpiOk).Ok?;
  }

  /** A pool is initialised once. */
  lemma InitRefusals(s: State, trading: bool, cooldown: u64, cap: u64, cpiOk: bool)
    ensures var r := Apply(s, InitStep(trading, cooldown, cap, cpiOk));
      && (r.Ok? <==> !s.pool.initialized && cpiOk)
      && (r.Err? ==> r.error == if s.pool.initialized then AlreadyInitialized else CpiFailed)
  {
  }

  // ------------------------------------------------------------------- deposits

  /** The LP an amount is worth. */
  function Worth(p: Pool, amount: u64): int {
    if p.lpSupply == 0 then amount
    else if p.NetValue() == 0 then 0
    else amount * p.lpSupply / p.NetValue()
  }

  /** How far back a topped-up position counts: its average age, rounded up, but no more
      than the old LP's share of the cooldown, rounded down. */
  function Backdated(s: State, user: Pubkey, total: nat): int
    requires total > 0 && PositionOf(s, user).slot <= s.slot
  {
    var prior := PositionOf(s, user);
    Min(CeilDiv(prior.lp * (s.slot - prior.slot), total), prior.lp * s.pool.cooldown / total)
  }

  /** A deposit moves the amount into the vault, mints its worth to the user's
      record and the LP account, and records the new value when the guard is on. */
  lemma DepositOutcome(s: State, user: Pubkey, lpTo: Pubkey, amount: u64, funded: bool, s': State)
    requires Reachable(s) && Apply(s, Deposit(user, lpTo, amount, funded)) == Ok(s')
    ensures s'.vault == s.vault + amount && s'.pool.deposited == s.pool.deposited + amount
    ensures s'.pool.lpSupply == s.pool.lpSupply + Worth(s.pool, amount)
    ensures s'.mintSupply == s.mintSupply + Worth(s.pool, amount)
    ensures s'.lpHeld == s.lpHeld[lpTo := Held(s'.lpHeld, lpTo)]
    ensures Held(s'.lpHeld, lpTo) == Held(s.lpHeld, lpTo) + Worth(s.pool, amount)
    ensures s'.records == s.records[user := PositionOf(s', user)]
    ensures PositionOf(s', user).lp == PositionOf(s, user).lp + Worth(s.pool, amount)
    ensures s'.pool == s.pool.(deposited := s'.pool.deposited, lpSupply := s'.pool.lpSupply, header := s'.pool.header)
    ensures s'.slot == s.slot && s'.epoch == s.epoch && s'.donated == s.donated
    ensures s.pool.header.hwmEnabled ==>
      && s'.pool.header.highWater == MarkStored(s, s') && s'.pool.header.lastEpoch == s.epoch
      && s'.pool.header == s.pool.header.(highWater := s'.pool.header.highWater, lastEpoch := s.epoch)
    ensures !s.pool.header.hwmEnabled ==> s'.pool.header == s.pool.header
  {
    ReachableInv(s);
    DepositEffect(s, user, lpTo, amount, funded, s');
    SettledDeposit(s, user, lpTo, amount, funded, Minted(s, s'), s');
    MintEffect(s, amount, Minted(s, s'));
    DepositStoresMark(s, user, amount, Minted(s, s'), s');
  }

  /** The slot a deposit leaves its user with. */
  lemma DepositSlot(s: State, user: Pubkey, lpTo: Pubkey, amount: u64, funded: bool, s': State)
    requires Reachable(s) && Apply(s, Deposit(user, lpTo, amount, funded)) == Ok(s')
    ensures PositionOf(s', user).lp > 0 && PositionOf(s, user).slot <= s.slot
    ensures PositionOf(s', user).slot == s.slot - Backdated(s, user, PositionOf(s', user).lp)
  {
    ReachableBasics(s);
    DepositEffect(s, user, lpTo, amount, funded, s');
    SettledDeposit(s, user, lpTo, amount, funded, Minted(s, s'), s');
    BookedSlot(s, user, amount, Minted(s, s'), s');
  }

  lemma BookedSlot(s: State, user: Pubkey, amount: u64, lp: u64, s': State)
    requires DepositBooked(s, user, amount, lp, s') && lp > 0 && PositionOf(s, user).slot <= s.slot
    ensures PositionOf(s', user).lp > 0
    ensures PositionOf(s', user).slot == s.slot - Backdated(s, user, PositionOf(s', user).lp)
  {
    var prior := PositionOf(s, user);
    CooldownLaws.CooldownClosedForm(prior.lp, prior.slot, lp, s.slot, s.pool.cooldown);
  }

  /** What the cap and the mint take the pool to be worth. */
  function Reported(p: Pool): int {
    if p.InRange() then p.NetValue() else 0
  }

  predicate Open(s: State, amount: u64) {
    amount > 0 && s.pool.initialized && !s.pool.header.resolved
  }

  /** Why a deposit is turned away with this error, before any token moves. */
  predicate DepositRefusal(s: State, amount: u64, error: Error) {
    match error
    case NotInitialized => amount > 0 && !s.pool.initialized
    case MarketResolved => amount > 0 && s.pool.initialized && s.pool.header.resolved
    case DepositCapExceeded => Open(s, amount) && 0 < s.pool.cap < Reported(s.pool) + amount <= U64_MAX
    case ZeroAmount =>
      || amount == 0
      || (&& Open(s, amount) && CapAllows(s.pool, amount)
          && s.pool.lpSupply > 0 && amount * s.pool.lpSupply < Reported(s.pool))
    case _ => false
  }

  /** A deposit is refused with one of these errors exactly in its own case. */
  lemma DepositRefusals(s: State, user: Pubkey, lpTo: Pubkey, amount: u64, funded: bool, error: Error)
    requires Reachable(s)
    requires error in {NotInitialized, MarketResolved, DepositCapExceeded, ZeroAmount}
    ensures Refused(Apply(s, Deposit(user, lpTo, amount, funded)), error) <==> DepositRefusal(s, amount, error)
  {
    ReachableBasics(s);
    GateRefusals(s, amount, error);
    var gate := DepositGate(s, amount);
    if gate.Ok? {
      SettleRefusals(s, user, lpTo, amount, funded, gate.value);
    }
  }

  lemma GateRefusals(s: State, amount: u64, error: Error)
    requires s.pool.header.DiscriminatorOk() && s.pool.NetValue() >= 0
    requires error in {NotInitialized, MarketResolved, DepositCapExceeded, ZeroAmount}
    ensures var r := DepositGate(s, amount);
      r.Err? && r.error == error <==> DepositRefusal(s, amount, error)
  {
    ValueMeaning(s.pool);
    MintRoundsToZeroIff(s.pool, amount);
  }

  lemma SettleRefusals(s: State, user: Pubkey, lpTo: Pubkey, amount: u64, funded: bool, lp: u64)
    ensures var r := SettleDeposit(s, user, lpTo, amount, funded, lp);
      r.Err? ==> r.error == TransferFailed || r.error == MintFailed || r.error == Overflow
  {
  }

  lemma MintRoundsToZeroIff(p: Pool, amount: u64)
    requires p.NetValue() >= 0
    ensures amount > 0 ==>
      (p.CalcLpForDeposit(amount) == Some(0) <==> p.lpSupply > 0 && amount * p.lpSupply < Reported(p))
  {
    ValueMeaning(p);
    if p.lpSupply > 0 && p.InRange() && p.NetValue() > 0 {
      VaultMath.MintMeaning(p.lpSupply, p.NetValue(), amount);
      QuotientPositiveIff(amount, p.lpSupply, p.NetValue());
    }
  }

  // ---------------------------------------------------------------- withdrawals

  /** A withdrawal burns the LP, pays its floored share, keeps the user's slot, and
      records the value before it when the guard is on. */
  lemma WithdrawOutcome(s: State, user: Pubkey, lp: u64, s': State)
    requires Reachable(s) && Apply(s, Withdraw(user, lp)) == Ok(s')
    ensures s.pool.lpSupply > 0 && user in s.records && lp <= s.records[user].lp
    ensures var paid := lp * s.pool.NetValue() / s.pool.lpSupply;
      && s'.vault == s.vault - paid && s'.pool.withdrawn == s.pool.withdrawn + paid
    ensures s'.pool.lpSupply == s.pool.lpSupply - lp && s'.mintSupply == s.mintSupply - lp
    ensures s'.lpHeld == s.lpHeld[user := Held(s'.lpHeld, user)] && Held(s'.lpHeld, user) == Held(s.lpHeld, user) - lp
    ensures s'.records == s.records[user := Position(s.records[user].slot, s.records[user].lp - lp)]
    ensures s'.pool == s.pool.(withdrawn := s'.pool.withdrawn, lpSupply := s'.pool.lpSupply, header := s'.pool.header)
    ensures s'.slot == s.slot && s'.epoch == s.epoch && s'.donated == s.donated
    ensures s.pool.header.hwmEnabled ==>
      && s'.pool.header.highWater == Mark(s)
      && s'.pool.header == s.pool.header.(highWater := s'.pool.header.highWater, lastEpoch := s.epoch)
    ensures !s.pool.header.hwmEnabled ==> s'.pool.header == s.pool.header
  {
    ReachableInv(s);
    WithdrawEffect(s, user, lp, s');
    BurnEffect(s.pool, lp, Paid(s, s'));
    HwmCheckKeepsHeader(s.pool, s.epoch, Paid(s, s'), s'.pool.header);
    if s.pool.header.hwmEnabled {
      WithdrawRespectsMark(s, user, lp, s');
    }
  }

  predicate Unlocked(s: State, user: Pubkey)
    requires user in s.records
  {
    s.slot >= Min(U64_MAX, s.records[user].slot + s.pool.cooldown)
  }

  /** The payout is at least one unit and would leave less than the floor share. */
  predicate BelowFloor(s: State, lp: u64)
    requires Mark(s) >= 0
  {
    && s.pool.header.hwmEnabled && s.pool.InRange()
    && lp * s.pool.NetValue() >= s.pool.lpSupply > 0
    && s.pool.NetValue() - lp * s.pool.NetValue() / s.pool.lpSupply < Floor(Mark(s), s.pool.header.floorBps)
  }

  /** Why a withdrawal is turned away with this error, before any token moves. */
  predicate WithdrawRefusal(s: State, user: Pubkey, lp: u64, error: Error)
    requires Mark(s) >= 0
  {
    var known := lp > 0 && s.pool.initialized && user in s.records;
    match error
    case NotInitialized => lp > 0 && !s.pool.initialized
    case InvalidAccount => lp > 0 && s.pool.initialized && user !in s.records
    case CooldownNotElapsed => known && !Unlocked(s, user)
    case InsufficientLpTokens => known && Unlocked(s, user) && lp > s.records[user].lp
    case WithdrawalBelowHwmFloor => known && Unlocked(s, user) && lp <= s.records[user].lp && BelowFloor(s, lp)
    case _ => false
  }

  /** A withdrawal is refused with one of these errors exactly in its own case. */
  lemma WithdrawRefusals(s: State, user: Pubkey, lp: u64, error: Error)
    requires Reachable(s)
    requires error in {NotInitialized, InvalidAccount, CooldownNotElapsed, InsufficientLpTokens,
                       WithdrawalBelowHwmFloor}
    ensures Mark(s) >= 0
    ensures Refused(Apply(s, Withdraw(user, lp)), error) <==> WithdrawRefusal(s, user, lp, error)
  {
    ReachableBasics(s);
    var gate := WithdrawGate(s, user, lp);
    PaidOrNot(s, user, lp);
    if gate.Ok? {
      FloorRefuses(s, lp, gate.value);
      AfterGateRefusals(s, user, lp, gate.value, error);
    } else {
      WithdrawGateRefusals(s, user, lp, error);
    }
  }

  /** The gate lets a payout through, or there is none to hold to the floor. */
  lemma PaidOrNot(s: State, user: Pubkey, lp: u64)
    requires s.pool.header.DiscriminatorOk() && s.pool.NetValue() >= 0
    requires PositionOf(s, user).lp <= s.pool.lpSupply
    ensures Mark(s) >= 0
    ensures var gate := WithdrawGate(s, user, lp);
      && (gate.Ok? ==>
            && lp > 0 && s.pool.initialized && user in s.records
            && Unlocked(s, user) && lp <= s.records[user].lp
            && s.pool.InRange() && 0 < lp <= s.pool.lpSupply
            && gate.value > 0 && gate.value == lp * s.pool.NetValue() / s.pool.lpSupply)
      && (gate.Err? && lp > 0 && s.pool.initialized && user in s.records ==>
            Unlocked(s, user) && lp <= s.records[user].lp ==> !BelowFloor(s, lp))
  {
    var gate := WithdrawGate(s, user, lp);
    if user in s.records && lp <= s.records[user].lp {
      if gate.Ok? {
        BurnEffect(s.pool, lp, gate.value);
      } else if s.pool.InRange() && s.pool.lpSupply > 0 {
        BurnInRange(s.pool, lp);
        QuotientPositiveIff(lp, s.pool.NetValue(), s.pool.lpSupply);
      }
    }
  }

  lemma WithdrawGateRefusals(s: State, user: Pubkey, lp: u64, error: Error)
    requires s.pool.header.DiscriminatorOk() && Mark(s) >= 0
    requires WithdrawGate(s, user, lp).Err?
    requires lp > 0 && s.pool.initialized && user in s.records && Unlocked(s, user) && lp <= s.records[user].lp ==>
      !BelowFloor(s, lp)
    requires error in {NotInitialized, InvalidAccount, CooldownNotElapsed, InsufficientLpTokens,
                       WithdrawalBelowHwmFloor}
    ensures Refused(DoWithdraw(s, user, lp), error) <==> WithdrawRefusal(s, user, lp, error)
  {
  }

  lemma AfterGateRefusals(s: State, user: Pubkey, lp: u64, paid: u64, error: Error)
    requires Mark(s) >= 0 && WithdrawGate(s, user, lp) == Ok(paid)
    requires lp > 0 && s.pool.initialized && user in s.records && Unlocked(s, user) && lp <= s.records[user].lp
    requires var check := HwmCheck(s.pool, s.epoch, paid);
      BelowFloor(s, lp) <==> check.Err? && check.error == WithdrawalBelowHwmFloor
    requires error in {NotInitialized, InvalidAccount, CooldownNotElapsed, InsufficientLpTokens,
                       WithdrawalBelowHwmFloor}
    ensures Refused(DoWithdraw(s, user, lp), error) <==> WithdrawRefusal(s, user, lp, error)
  {
  }

  lemma FloorRefuses(s: State, lp: u64, paid: u64)
    requires Reachable(s) && s.pool.InRange() && s.pool.lpSupply > 0 && lp <= s.pool.lpSupply
    requires paid > 0 && paid == lp * s.pool.NetValue() / s.pool.lpSupply
    ensures Mark(s) >= 0
    ensures BelowFloor(s, lp) <==>
      HwmCheck(s.pool, s.epoch, paid).Err? && HwmCheck(s.pool, s.epoch, paid).error == WithdrawalBelowHwmFloor
  {
    ReachableInv(s);
    ValueMeaning(s.pool);
    BurnInRange(s.pool, lp);
    QuotientPositiveIff(lp, s.pool.NetValue(), s.pool.lpSupply);
    if s.pool.header.hwmEnabled {
      GuardPassesIff(s, paid);
    }
  }

  // ------------------------------------------------------- insurance and fees

  /** A flush moves exactly its amount out. */
  lemma FlushOutcome(s: State, byAdmin: bool, amount: u64, cpiOk: bool, s': State)
    requires Apply(s, FlushToInsurance(byAdmin, amount, cpiOk)) == Ok(s')
    ensures amount <= s.vault && s.pool.flushed + amount <= U64_MAX
    ensures s' == s.(vault := s.vault - amount, pool := s.pool.(flushed := s.pool.flushed + amount))
  {
  }

  /** Why a flush is turned away: wrong mode, wrong caller, or more than the value. */
  lemma FlushRefusals(s: State, byAdmin: bool, amount: u64, cpiOk: bool)
    requires Reachable(s)
    ensures var r := Apply(s, FlushToInsurance(byAdmin, amount, cpiOk));
      var allowed := s.pool.initialized && s.pool.mode == INSURANCE_MODE && byAdmin;
      && (Refused(r, InvalidPoolMode) <==> amount > 0 && s.pool.mode == TRADING_MODE)
      && (Refused(r, Unauthorized) <==> amount > 0 && s.pool.initialized && s.pool.mode == INSURANCE_MODE && !byAdmin)
      && (Refused(r, InsufficientFunds) <==> allowed && s.pool.InRange() && amount > s.pool.NetValue())
  {
    ReachableBasics(s);
    FlushErrors(s, byAdmin, amount, cpiOk);
    if s.pool.mode == INSURANCE_MODE {
      CeilingMeaning(s.pool);
    }
  }

  lemma FlushErrors(s: State, byAdmin: bool, amount: u64, cpiOk: bool)
    ensures var r := DoFlush(s, byAdmin, amount, cpiOk);
      var asked := amount > 0 && s.pool.initialized;
      && (Refused(r, InvalidPoolMode) <==> asked && s.pool.mode != INSURANCE_MODE)
      && (Refused(r, Unauthorized) <==> asked && s.pool.mode == INSURANCE_MODE && !byAdmin)
      && (Refused(r, InsufficientFunds) <==>
            && asked && s.pool.mode == INSURANCE_MODE && byAdmin
            && s.pool.FlushCeiling().Some? && amount > s.pool.FlushCeiling().value)
  {
  }

  /** A return credits exactly what came back. */
  lemma ReturnOutcome(s: State, byAdmin: bool, amount: u64, cpiOk: bool, s': State)
    requires Apply(s, WithdrawInsurance(byAdmin, amount, cpiOk)) == Ok(s')
    ensures s.vault + amount <= U64_MAX && s.pool.returned + amount <= U64_MAX
    ensures s' == s.(vault := s.vault + amount, pool := s.pool.(returned := s.pool.returned + amount))
  {
  }

  /** Only the admin of an insurance pool returns insurance. */
  lemma ReturnRefusals(s: State, byAdmin: bool, amount: u64, cpiOk: bool)
    requires Reachable(s)
    ensures var r := Apply(s, WithdrawInsurance(byAdmin, amount, cpiOk));
      && (r.Ok? <==>
            && s.pool.initialized && s.pool.mode == INSURANCE_MODE && byAdmin && cpiOk
            && s.vault + amount <= U64_MAX && s.pool.returned + amount <= U64_MAX)
      && (Refused(r, NotInitialized) <==> !s.pool.initialized)
      && (Refused(r, Unauthorized) <==> s.pool.initialized && !byAdmin)
      && (Refused(r, InvalidPoolMode) <==> s.pool.mode == TRADING_MODE && byAdmin)
  {
    ReachableBasics(s);
    ReturnErrors(s, byAdmin, amount, cpiOk);
  }

  lemma ReturnErrors(s: State, byAdmin: bool, amount: u64, cpiOk: bool)
    ensures var r := DoWithdrawInsurance(s, byAdmin, amount, cpiOk);
      && (r.Ok? <==>
            && s.pool.initialized && s.pool.mode == INSURANCE_MODE && byAdmin && cpiOk
            && s.vault + amount <= U64_MAX && s.pool.returned + amount <= U64_MAX)
      && (Refused(r, NotInitialized) <==> !s.pool.initialized)
      && (Refused(r, Unauthorized) <==> s.pool.initialized && !byAdmin)
      && (Refused(r, InvalidPoolMode) <==> s.pool.initialized && byAdmin && s.pool.mode != INSURANCE_MODE)
  {
  }

  /** With LP outstanding the fees become every donation but the offset; without LP all
      that is in the vault is set aside, which is every donation never booked. */
  predicate CrankBooked(s: State, s': State) {
    && (s.pool.lpSupply > 0 ==>
          && 0 <= s.donated - s.pool.header.offset <= U64_MAX
          && s' == s.(pool := s.pool.(fees := s.donated - s.pool.header.offset)))
    && (s.pool.lpSupply == 0 ==>
          && s.vault == s.donated - s.pool.fees
          && s' == s.(pool := s.pool.(header := s.pool.header.(offset := s.vault))))
  }

  /** A crank changes the one counter it is about, to the amount the donations give. */
  lemma CrankOutcome(s: State, s': State)
    requires Reachable(s) && DoAccrueFees(s) == Ok(s')
    ensures CrankBooked(s, s')
  {
    ReachableBooks(s);
    CrankMoves(s, s');
  }

  lemma ReachableBooks(s: State)
    requires Reachable(s)
    ensures Books(s)
  {
    ReachableInv(s);
  }

  /** Why a crank is turned away: no pool, the wrong mode, or counters that overflow. */
  lemma CrankRefusals(s: State)
    requires Reachable(s)
    ensures var r := Apply(s, AccrueFees);
      && (Refused(r, UninitializedAccount) <==> !s.pool.initialized)
      && (Refused(r, InvalidPoolMode) <==> s.pool.initialized && s.pool.mode == INSURANCE_MODE)
      && (r.Err? && s.pool.mode == TRADING_MODE ==> r.error == Overflow)
  {
    ReachableBasics(s);
    CrankErrors(s);
  }

  lemma CrankErrors(s: State)
    ensures var r := DoAccrueFees(s);
      && (Refused(r, UninitializedAccount) <==> !s.pool.initialized)
      && (Refused(r, InvalidPoolMode) <==> s.pool.initialized && s.pool.mode != TRADING_MODE)
      && (r.Err? ==> r.error == UninitializedAccount || r.error == InvalidPoolMode || r.error == Overflow)
  {
  }

  lemma CrankMoves(s: State, s': State)
    requires Books(s) && DoAccrueFees(s) == Ok(s')
    ensures CrankBooked(s, s')
  {
  }

  // -------------------------------------------------------------- configuration

  /** Each given setting is stored, each missing one kept, and nothing else changes. */
  lemma ConfigOutcome(s: State, byAdmin: bool, newCooldown: Option<u64>, newCap: Option<u64>)
    ensures var r := Apply(s, UpdateConfig(byAdmin, newCooldown, newCap));
      && (r.Ok? <==> s.pool.initialized && byAdmin)
      && (r.Ok? ==>
            && r.value == s.(pool := s.pool.(cooldown := r.value.pool.cooldown, cap := r.value.pool.cap))
            && (newCooldown.Some? ==> r.value.pool.cooldown == newCooldown.value)
            && (newCooldown.None? ==> r.value.pool.cooldown == s.pool.cooldown)
            && (newCap.Some? ==> r.value.pool.cap == newCap.value)
            && (newCap.None? ==> r.value.pool.cap == s.pool.cap))
      && (r.Err? ==> r.error == if s.pool.initialized then Unauthorized else NotInitialized)
  {
  }

  /** Enabling stores the given floor, also when the guard was on; disabling keeps it. */
  lemma GuardOutcome(s: State, byAdmin: bool, enabled: bool, bps: u16, s': State)
    requires Apply(s, SetHwmConfig(byAdmin, enabled, bps)) == Ok(s')
    ensures s'.pool.header.hwmEnabled == enabled
    ensures s'.pool.header.floorBps == if enabled then bps else s.pool.header.floorBps
    ensures s' == s.(pool := s.pool.(header := s'.pool.header))
    ensures s'.pool.header == s.pool.header.(hwmEnabled := enabled, floorBps := s'.pool.header.floorBps)
  {
  }

  predicate GuardRules(s: State, byAdmin: bool, enabled: bool, bps: u16, r: Result<State, Error>) {
    var sound := enabled ==> 1 <= bps <= BPS_DENOMINATOR;
    && (r.Ok? <==> s.pool.initialized && byAdmin && sound)
    && (Refused(r, NotInitialized) <==> !s.pool.initialized)
    && (Refused(r, Unauthorized) <==> s.pool.initialized && !byAdmin)
    && (Refused(r, InvalidInstructionData) <==> s.pool.initialized && byAdmin && !sound)
  }

  /** Who may configure the guard, and with which floors. */
  lemma GuardRefusals(s: State, byAdmin: bool, enabled: bool, bps: u16)
    requires Reachable(s)
    ensures GuardRules(s, byAdmin, enabled, bps, Apply(s, SetHwmConfig(byAdmin, enabled, bps)))
  {
    ReachableBasics(s);
    GuardErrors(s, byAdmin, enabled, bps);
  }

  lemma GuardErrors(s: State, byAdmin: bool, enabled: bool, bps: u16)
    requires s.pool.header.DiscriminatorOk()
    ensures GuardRules(s, byAdmin, enabled, bps, DoSetHwmConfig(s, byAdmin, enabled, bps))
  {
  }

  /** Resolution is the admin's, and sets only the flag. */
  lemma ResolveOutcome(s: State, byAdmin: bool, cpiOk: bool)
    ensures var r := Apply(s, ResolveMarket(byAdmin, cpiOk));
      && (r.Ok? <==> s.pool.initialized && byAdmin && cpiOk)
      && (r.Ok? ==> r.value == s.(pool := s.pool.(header := s.pool.header.(resolved := true))))
      && (Refused(r, NotInitialized) <==> !s.pool.initialized)
      && (Refused(r, Unauthorized) <==> s.pool.initialized && !byAdmin)
  {
  }
}
