/** The vault as a state machine: one pool, the deposit records of its users, the
    token accounts around it and the clock. Each instruction is a step; a rejected
    instruction leaves the state as it was. */
module VaultMachine {
  import opened Machine
  import opened Reserved
  import opened PoolState
  import VaultMath

  type Pubkey = nat

  /** A user's deposit record. */
  datatype Position = Position(slot: u64, lp: u64)

  const EMPTY_POSITION := Position(0, 0)

  datatype State = State(
    pool: Pool,
    records: map<Pubkey, Position>,
    vault: u64,                // tokens really held by the vault account
    lpHeld: map<Pubkey, u64>,  // LP tokens by holder
    mintSupply: u64,           // supply recorded by the LP mint
    slot: u64,
    epoch: u64,
    donated: nat)              // lifetime tokens sent straight to the vault

  datatype Error =
    | ZeroAmount | Overflow | NotInitialized | UninitializedAccount | AlreadyInitialized
    | InvalidAccount | InvalidPoolMode | InvalidInstructionData | Unauthorized
    | MarketResolved | DepositCapExceeded | CooldownNotElapsed | InsufficientLpTokens
    | WithdrawalBelowHwmFloor | InsufficientFunds
    | TransferFailed | MintFailed | BurnFailed | VaultShort | CpiFailed | EnvironmentRefused

  datatype Step =
    | InitPool(initCooldown: u64, initCap: u64, cpiOk: bool)
    | InitTradingPool(initCooldown: u64, initCap: u64, cpiOk: bool)
    | Deposit(user: Pubkey, lpTo: Pubkey, amount: u64, funded: bool)
    | Withdraw(user: Pubkey, lp: u64)
    | FlushToInsurance(byAdmin: bool, amount: u64, cpiOk: bool)
    | WithdrawInsurance(byAdmin: bool, amount: u64, cpiOk: bool)
    | AccrueFees
    | UpdateConfig(byAdmin: bool, newCooldown: Option<u64>, newCap: Option<u64>)
    | SetHwmConfig(byAdmin: bool, enabled: bool, bps: u16)
    | ResolveMarket(byAdmin: bool, cpiOk: bool)
      // the world around the program
    | AdvanceClock(toSlot: u64, toEpoch: u64)
    | Donate(amount: u64)
    | TransferLp(from: Pubkey, to: Pubkey, amount: u64)
    | BurnLp(from: Pubkey, amount: u64)

  const ZERO_HEADER := Header(Zeroed, 0, false, false, 0, 0, 0, 0)

  /** A zeroed account, before any initialisation. */
  const ZERO_POOL := Pool(false, INSURANCE_MODE, 0, 0, 0, 0, 0, 0, 0, 0, ZERO_HEADER)

  function Initial(slot: u64, epoch: u64): State {
    State(ZERO_POOL, map[], 0, map[], 0, slot, epoch, 0)
  }

  function Held(m: map<Pubkey, u64>, k: Pubkey): u64 {
    if k in m then m[k] else 0
  }

  function PositionOf(s: State, user: Pubkey): Position {
    if user in s.records then s.records[user] else EMPTY_POSITION
  }

  // ------------------------------------------------------------------ handlers

  /** `process_init_pool` writes the counters it owns and the discriminator; mode,
      fees and the other header fields keep the zeroes of the new account. */
  function DoInit(s: State, cooldown: u64, cap: u64, cpiOk: bool): Result<State, Error> {
    if s.pool.initialized then Err(AlreadyInitialized)
    else if !cpiOk then Err(CpiFailed)
    else Ok(s.(pool := s.pool.(initialized := true, deposited := 0, lpSupply := 0,
                               cooldown := cooldown, cap := cap, flushed := 0, returned := 0,
                               withdrawn := 0, header := SetField(s.pool.header, SetDiscriminator))))
  }

  function DoInitTrading(s: State, cooldown: u64, cap: u64, cpiOk: bool): Result<State, Error> {
    var s1 :- DoInit(s, cooldown, cap, cpiOk);
    Ok(s1.(pool := s1.pool.(mode := TRADING_MODE)))
  }

  function CapCheck(p: Pool, amount: u64): Result<bool, Error> {
    if p.cap == 0 then Ok(true)
    else
      var newValue :- CheckedAdd64(p.TotalPoolValue().UnwrapOr(0), amount).OkOr(Overflow);
      if newValue > p.cap then Err(DepositCapExceeded) else Ok(true)
  }

  /** Header after a deposit: the mark follows the new value when HWM is on. */
  function HeaderAfterDeposit(p: Pool, epoch: u64): Header {
    if p.header.hwmEnabled then p.header.RefreshHwm(epoch, p.TotalPoolValue().UnwrapOr(0))
    else p.header
  }

  /** The checks of a deposit, up to the LP it will mint. */
  function DepositGate(s: State, amount: u64): Result<u64, Error> {
    if amount == 0 then Err(ZeroAmount)
    else if !s.pool.initialized then Err(NotInitialized)
    else if !s.pool.header.DiscriminatorOk() then Err(InvalidAccount)
    else if s.pool.header.resolved then Err(MarketResolved)
    else
      var _ :- CapCheck(s.pool, amount);
      var lp :- s.pool.CalcLpForDeposit(amount).OkOr(Overflow);
      if lp == 0 then Err(ZeroAmount) else Ok(lp)
  }

  /** Collateral into the vault, LP out of the mint. */
  function TakeDeposit(s: State, lpTo: Pubkey, amount: u64, funded: bool, lp: u64): Result<State, Error> {
    if !funded || s.vault + amount > U64_MAX then Err(TransferFailed)
    else if Held(s.lpHeld, lpTo) + lp > U64_MAX || s.mintSupply + lp > U64_MAX then Err(MintFailed)
    else Ok(s.(vault := s.vault + amount,
               lpHeld := s.lpHeld[lpTo := Held(s.lpHeld, lpTo) + lp],
               mintSupply := s.mintSupply + lp))
  }

  /** Pool totals, mark and the user's record. */
  function BookDeposit(s: State, user: Pubkey, amount: u64, lp: u64): Result<State, Error> {
    var deposited :- CheckedAdd64(s.pool.deposited, amount).OkOr(Overflow);
    var supply :- CheckedAdd64(s.pool.lpSupply, lp).OkOr(Overflow);
    var pool := s.pool.(deposited := deposited, lpSupply := supply);
    var prior := PositionOf(s, user);
    var slot := VaultMath.WeightedDepositSlot(prior.lp, prior.slot, lp, s.slot, pool.cooldown);
    var position :- CheckedAdd64(prior.lp, lp).OkOr(Overflow);
    Ok(s.(pool := pool.(header := HeaderAfterDeposit(pool, s.epoch)),
          records := s.records[user := Position(slot, position)]))
  }

  /** Token movements and bookkeeping of a deposit that mints lp. */
  function SettleDeposit(s: State, user: Pubkey, lpTo: Pubkey, amount: u64, funded: bool,
                         lp: u64): Result<State, Error>
  {
    var s1 :- TakeDeposit(s, lpTo, amount, funded, lp);
    BookDeposit(s1, user, amount, lp)
  }

  function DoDeposit(s: State, user: Pubkey, lpTo: Pubkey, amount: u64, funded: bool): Result<State, Error> {
    var lp :- DepositGate(s, amount);
    SettleDeposit(s, user, lpTo, amount, funded, lp)
  }

  /** Header after the drawdown check of a withdrawal, or the reason to refuse. */
  function HwmCheck(p: Pool, epoch: u64, collateral: u64): Result<Header, Error> {
    if !p.header.hwmEnabled then Ok(p.header)
    else
      var tvl := p.TotalPoolValue().UnwrapOr(0);
      var header := p.header.RefreshHwm(epoch, tvl);
      var postTvl :- CheckedSub64(tvl, collateral).OkOr(Overflow);
      if VaultMath.HwmWithdrawalAllowed(postTvl, header.highWater, header.floorBps) then Ok(header)
      else Err(WithdrawalBelowHwmFloor)
  }

  /** First slot at which a position may be withdrawn. */
  function UnlockSlot(position: Position, cooldown: u64): u64 {
    SaturatingAdd64(position.slot, cooldown)
  }

  /** The checks of a withdrawal, up to the collateral it will pay. */
  function WithdrawGate(s: State, user: Pubkey, lp: u64): Result<u64, Error> {
    if lp == 0 then Err(ZeroAmount)
    else if !s.pool.initialized then Err(NotInitialized)
    else if !s.pool.header.DiscriminatorOk() then Err(InvalidAccount)
    else if user !in s.records then Err(InvalidAccount)
    else if s.slot < UnlockSlot(s.records[user], s.pool.cooldown) then Err(CooldownNotElapsed)
    else if lp > s.records[user].lp then Err(InsufficientLpTokens)
    else
      var collateral :- s.pool.CalcCollateralForWithdraw(lp).OkOr(Overflow);
      if collateral == 0 then Err(ZeroAmount) else Ok(collateral)
  }

  /** LP burnt, collateral out of the vault. */
  function PayOut(s: State, user: Pubkey, lp: u64, collateral: u64): Result<State, Error> {
    if Held(s.lpHeld, user) < lp || s.mintSupply < lp then Err(BurnFailed)
    else if s.vault < collateral then Err(VaultShort)
    else Ok(s.(vault := s.vault - collateral,
               lpHeld := s.lpHeld[user := Held(s.lpHeld, user) - lp],
               mintSupply := s.mintSupply - lp))
  }

  /** Pool totals and the user's record. */
  function BookWithdraw(s: State, user: Pubkey, lp: u64, collateral: u64): Result<State, Error>
    requires user in s.records && lp <= s.records[user].lp
  {
    var withdrawn :- CheckedAdd64(s.pool.withdrawn, collateral).OkOr(Overflow);
    var supply :- CheckedSub64(s.pool.lpSupply, lp).OkOr(Overflow);
    Ok(s.(pool := s.pool.(withdrawn := withdrawn, lpSupply := supply),
          records := s.records[user := s.records[user].(lp := s.records[user].lp - lp)]))
  }

  function DoWithdraw(s: State, user: Pubkey, lp: u64): Result<State, Error> {
    var collateral :- WithdrawGate(s, user, lp);
    var header :- HwmCheck(s.pool, s.epoch, collateral);
    var s1 :- PayOut(s.(pool := s.pool.(header := header)), user, lp, collateral);
    BookWithdraw(s1, user, lp, collateral)
  }

  function DoFlush(s: State, byAdmin: bool, amount: u64, cpiOk: bool): Result<State, Error> {
    if amount == 0 then Err(ZeroAmount)
    else if !s.pool.initialized then Err(NotInitialized)
    else if s.pool.mode != INSURANCE_MODE then Err(InvalidPoolMode)
    else if !byAdmin then Err(Unauthorized)
    else
      var available :- s.pool.FlushCeiling().OkOr(Overflow);
      if amount > available then Err(InsufficientFunds)
      else if !cpiOk then Err(CpiFailed)
      else if s.vault < amount then Err(VaultShort)
      else
        var flushed :- CheckedAdd64(s.pool.flushed, amount).OkOr(Overflow);
        Ok(s.(pool := s.pool.(flushed := flushed), vault := s.vault - amount))
  }

  /** `validate_admin_cpi`, reduced to what the accounting can see. */
  function AdminCheck(p: Pool, byAdmin: bool): Result<bool, Error> {
    if !p.initialized then Err(NotInitialized)
    else if !byAdmin then Err(Unauthorized)
    else Ok(true)
  }

  function DoWithdrawInsurance(s: State, byAdmin: bool, amount: u64, cpiOk: bool): Result<State, Error> {
    var _ :- AdminCheck(s.pool, byAdmin);
    if s.pool.mode != INSURANCE_MODE then Err(InvalidPoolMode)
    else if !cpiOk || s.vault + amount > U64_MAX then Err(CpiFailed)
    else
      var returned :- CheckedAdd64(s.pool.returned, amount).OkOr(Overflow);
      Ok(s.(pool := s.pool.(returned := returned), vault := s.vault + amount))
  }

  /** The permissionless crank: with no supply it remembers the balance as an
      offset, otherwise it books what lies above the baseline as fees. */
  function DoAccrueFees(s: State): Result<State, Error> {
    if !s.pool.initialized then Err(UninitializedAccount)
    else if s.pool.mode != TRADING_MODE then Err(InvalidPoolMode)
    else if s.pool.lpSupply == 0 then
      Ok(s.(pool := s.pool.(header := SetField(s.pool.header, SetOffset(s.vault)))))
    else
      var baseline :- s.pool.AccrualBaseline().OkOr(Overflow);
      var expected :- CheckedAdd64(baseline, s.pool.header.offset).OkOr(Overflow);
      if s.vault > expected then
        var fees :- CheckedAdd64(s.pool.fees, s.vault - expected).OkOr(Overflow);
        Ok(s.(pool := s.pool.(fees := fees)))
      else Ok(s)
  }

  function DoUpdateConfig(s: State, byAdmin: bool, newCooldown: Option<u64>,
                          newCap: Option<u64>): Result<State, Error>
  {
    var _ :- AdminCheck(s.pool, byAdmin);
    Ok(s.(pool := s.pool.(cooldown := newCooldown.UnwrapOr(s.pool.cooldown),
                          cap := newCap.UnwrapOr(s.pool.cap))))
  }

  /** Disabling keeps the stored floor; enabling requires a floor in 1..10000. */
  function DoSetHwmConfig(s: State, byAdmin: bool, enabled: bool, bps: u16): Result<State, Error> {
    if !s.pool.initialized then Err(NotInitialized)
    else if !s.pool.header.DiscriminatorOk() then Err(InvalidAccount)
    else if !byAdmin then Err(Unauthorized)
    else
      var header := SetField(s.pool.header, SetHwmEnabled(enabled));
      if !enabled then Ok(s.(pool := s.pool.(header := header)))
      else if bps == 0 || bps > BPS_DENOMINATOR then Err(InvalidInstructionData)
      else Ok(s.(pool := s.pool.(header := SetField(header, SetFloorBps(bps)))))
  }

  function DoResolve(s: State, byAdmin: bool, cpiOk: bool): Result<State, Error> {
    var _ :- AdminCheck(s.pool, byAdmin);
    if !cpiOk then Err(CpiFailed)
    else Ok(s.(pool := s.pool.(header := SetField(s.pool.header, SetResolved))))
  }

  function DoAdvanceClock(s: State, slot: u64, epoch: u64): Result<State, Error> {
    if slot < s.slot || epoch < s.epoch then Err(EnvironmentRefused)
    else Ok(s.(slot := slot, epoch := epoch))
  }

  function DoDonate(s: State, amount: u64): Result<State, Error> {
    if !s.pool.initialized || s.vault + amount > U64_MAX then Err(EnvironmentRefused)
    else Ok(s.(vault := s.vault + amount, donated := s.donated + amount))
  }

  function DoTransferLp(s: State, from: Pubkey, to: Pubkey, amount: u64): Result<State, Error> {
    if Held(s.lpHeld, from) < amount then Err(EnvironmentRefused)
    else
      var taken := s.lpHeld[from := Held(s.lpHeld, from) - amount];
      if Held(taken, to) + amount > U64_MAX then Err(EnvironmentRefused)
      else Ok(s.(lpHeld := taken[to := Held(taken, to) + amount]))
  }

  function DoBurnLp(s: State, from: Pubkey, amount: u64): Result<State, Error> {
    if Held(s.lpHeld, from) < amount || s.mintSupply < amount then Err(EnvironmentRefused)
    else Ok(s.(lpHeld := s.lpHeld[from := Held(s.lpHeld, from) - amount],
               mintSupply := s.mintSupply - amount))
  }

  // ---------------------------------------------------------------------- runs

  function Apply(s: State, step: Step): Result<State, Error> {
    match step
    case InitPool(cooldown, cap, cpiOk) => DoInit(s, cooldown, cap, cpiOk)
    case InitTradingPool(cooldown, cap, cpiOk) => DoInitTrading(s, cooldown, cap, cpiOk)
    case Deposit(user, lpTo, amount, funded) => DoDeposit(s, user, lpTo, amount, funded)
    case Withdraw(user, lp) => DoWithdraw(s, user, lp)
    case FlushToInsurance(byAdmin, amount, cpiOk) => DoFlush(s, byAdmin, amount, cpiOk)
    case WithdrawInsurance(byAdmin, amount, cpiOk) => DoWithdrawInsurance(s, byAdmin, amount, cpiOk)
    case AccrueFees => DoAccrueFees(s)
    case UpdateConfig(byAdmin, cooldown, cap) => DoUpdateConfig(s, byAdmin, cooldown, cap)
    case SetHwmConfig(byAdmin, enabled, bps) => DoSetHwmConfig(s, byAdmin, enabled, bps)
    case ResolveMarket(byAdmin, cpiOk) => DoResolve(s, byAdmin, cpiOk)
    case AdvanceClock(slot, epoch) => DoAdvanceClock(s, slot, epoch)
    case Donate(amount) => DoDonate(s, amount)
    case TransferLp(from, to, amount) => DoTransferLp(s, from, to, amount)
    case BurnLp(from, amount) => DoBurnLp(s, from, amount)
  }

  /** Transactions are atomic: a failing step changes nothing. */
  function Next(s: State, step: Step): State {
    match Apply(s, step)
    case Ok(s') => s'
    case Err(_) => s
  }

  function Run(s: State, steps: seq<Step>): State
    decreases steps
  {
    if steps == [] then s else Run(Next(s, steps[0]), steps[1..])
  }

  ghost predicate Reachable(s: State) {
    exists slot: u64, epoch: u64, steps: seq<Step> :: s == Run(Initial(slot, epoch), steps)
  }
}
