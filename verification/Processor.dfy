/** The instruction handlers as the program runs them: fields are updated one by
    one with early returns, some of them after earlier writes, and the runtime
    rolls a failed transaction back. */
module Processor {
  import opened Machine
  import opened Reserved
  import opened PoolState
  import opened VaultMachine
  import opened StakePoolAccount
  import Invariant
  import VaultMath

  class Vault {
    const pool: StakePool
    var records: map<Pubkey, Position>
    var balance: u64
    var lpHeld: map<Pubkey, u64>
    var lpMintSupply: u64
    var slot: u64
    var epoch: u64
    ghost var donated: nat

    ghost predicate Valid() {
      pool.Valid()
    }

    ghost function View(): State
      requires Valid()
      reads this, pool, pool.reserved
    {
      State(pool.View(), records, balance, lpHeld, lpMintSupply, slot, epoch, donated)
    }

    constructor (slot: u64, epoch: u64)
      ensures Valid() && View() == Initial(slot, epoch)
      ensures fresh(pool) && fresh(pool.reserved)
    {
      pool := new StakePool();
      records, balance, lpHeld, lpMintSupply, donated := map[], 0, map[], 0, 0;
      this.slot, this.epoch := slot, epoch;
    }

    method ProcessInitPool(cooldown: u64, cap: u64, cpiOk: bool) returns (error: Option<Error>)
      requires Valid()
      modifies pool, pool.reserved
      ensures DoInit(old(View()), cooldown, cap, cpiOk) == if error.None? then Ok(View()) else Err(error.value)
    {
      if pool.isInitialized {
        return Some(AlreadyInitialized);
      }
      if !cpiOk {
        return Some(CpiFailed);
      }
      pool.isInitialized := true;
      pool.totalDeposited := 0;
      pool.totalLpSupply := 0;
      pool.cooldownSlots := cooldown;
      pool.depositCap := cap;
      pool.totalFlushed := 0;
      pool.totalReturned := 0;
      pool.totalWithdrawn := 0;
      pool.SetDiscriminator();
      return None;
    }

    method ProcessInitTradingPool(cooldown: u64, cap: u64, cpiOk: bool) returns (error: Option<Error>)
      requires Valid()
      modifies pool, pool.reserved
      ensures DoInitTrading(old(View()), cooldown, cap, cpiOk) == if error.None? then Ok(View()) else Err(error.value)
    {
      error := ProcessInitPool(cooldown, cap, cpiOk);
      if error.Some? {
        return;
      }
      pool.poolMode := TRADING_MODE;
    }

    /** The checks of a deposit, up to the LP it will mint. */
    method CheckDeposit(amount: u64) returns (r: Result<u64, Error>)
      requires Valid()
      ensures r == DepositGate(View(), amount)
    {
      if amount == 0 {
        return Err(ZeroAmount);
      }
      if !pool.isInitialized {
        return Err(NotInitialized);
      }
      if !pool.Header().DiscriminatorOk() {
        return Err(InvalidAccount);
      }
      if pool.Header().resolved {
        return Err(MarketResolved);
      }
      if pool.depositCap > 0 {
        var currentValue := pool.View().TotalPoolValue().UnwrapOr(0);
        var newValue := CheckedAdd64(currentValue, amount);
        if newValue.None? {
          return Err(Overflow);
        }
        if newValue.value > pool.depositCap {
          return Err(DepositCapExceeded);
        }
      }
      var lpToMint := pool.View().CalcLpForDeposit(amount);
      if lpToMint.None? {
        return Err(Overflow);
      }
      if lpToMint.value == 0 {
        return Err(ZeroAmount);
      }
      return Ok(lpToMint.value);
    }

    method ProcessDeposit(user: Pubkey, lpTo: Pubkey, amount: u64, funded: bool) returns (error: Option<Error>)
      requires Valid()
      modifies this, pool, pool.reserved
      ensures DoDeposit(old(View()), user, lpTo, amount, funded) == if error.None? then Ok(View()) else Err(error.value)
    {
      var gate := CheckDeposit(amount);
      if gate.Err? {
        return Some(gate.error);
      }
      var lp := gate.value;
      error := TakeDepositInPlace(lpTo, amount, funded, lp);
      if error.Some? {
        return;
      }
      error := BookDepositInPlace(user, amount, lp);
    }

    /** With the drawdown guard on, the mark follows the value after a deposit. */
    method RaiseMark()
      requires Valid()
      modifies pool.reserved
      ensures pool.Header() == HeaderAfterDeposit(old(pool.View()), epoch)
    {
      if pool.Header().hwmEnabled {
        var tvl := pool.View().TotalPoolValue().UnwrapOr(0);
        var _ := pool.RefreshHwm(epoch, tvl);
      }
    }

    /** Collateral into the vault, LP out of the mint. */
    method TakeDepositInPlace(lpTo: Pubkey, amount: u64, funded: bool, lp: u64) returns (error: Option<Error>)
      requires Valid()
      modifies this
      ensures TakeDeposit(old(View()), lpTo, amount, funded, lp) == if error.None? then Ok(View()) else Err(error.value)
    {
      if !funded || balance + amount > U64_MAX {
        return Some(TransferFailed);
      }
      balance := balance + amount;
      if Held(lpHeld, lpTo) + lp > U64_MAX || lpMintSupply + lp > U64_MAX {
        return Some(MintFailed);
      }
      lpHeld := lpHeld[lpTo := Held(lpHeld, lpTo) + lp];
      lpMintSupply := lpMintSupply + lp;
      return None;
    }

    /** Pool totals, mark and the user's record. */
    method BookDepositInPlace(user: Pubkey, amount: u64, lp: u64) returns (error: Option<Error>)
      requires Valid()
      modifies this`records, pool, pool.reserved
      ensures BookDeposit(old(View()), user, amount, lp) == if error.None? then Ok(View()) else Err(error.value)
    {
      var deposited := CheckedAdd64(pool.totalDeposited, amount);
      if deposited.None? {
        return Some(Overflow);
      }
      pool.totalDeposited := deposited.value;
      var supply := CheckedAdd64(pool.totalLpSupply, lp);
      if supply.None? {
        return Some(Overflow);
      }
      pool.totalLpSupply := supply.value;
      RaiseMark();
      var prior := if user in records then records[user] else EMPTY_POSITION;
      var blended := VaultMath.WeightedDepositSlot(prior.lp, prior.slot, lp, slot, pool.cooldownSlots);
      var total := CheckedAdd64(prior.lp, lp);
      if total.None? {
        return Some(Overflow);
      }
      records := records[user := Position(blended, total.value)];
      return None;
    }

    /** The checks of a withdrawal, up to the collateral it will pay. */
    method CheckWithdraw(user: Pubkey, lp: u64) returns (r: Result<u64, Error>)
      requires Valid()
      ensures r == WithdrawGate(View(), user, lp)
    {
      if lp == 0 {
        return Err(ZeroAmount);
      }
      if !pool.isInitialized {
        return Err(NotInitialized);
      }
      if !pool.Header().DiscriminatorOk() {
        return Err(InvalidAccount);
      }
      if user !in records {
        return Err(InvalidAccount);
      }
      if slot < SaturatingAdd64(records[user].slot, pool.cooldownSlots) {
        return Err(CooldownNotElapsed);
      }
      if lp > records[user].lp {
        return Err(InsufficientLpTokens);
      }
      var collateral := pool.View().CalcCollateralForWithdraw(lp);
      if collateral.None? {
        return Err(Overflow);
      }
      if collateral.value == 0 {
        return Err(ZeroAmount);
      }
      return Ok(collateral.value);
    }

    /** The drawdown guard refreshes the mark even when it then refuses. */
    method EnforceHwm(collateral: u64) returns (error: Option<Error>)
      requires Valid()
      modifies pool.reserved
      ensures HwmCheck(old(pool.View()), epoch, collateral)
           == if error.None? then Ok(pool.Header()) else Err(error.value)
    {
      if !pool.Header().hwmEnabled {
        return None;
      }
      var tvl := pool.View().TotalPoolValue().UnwrapOr(0);
      var mark := pool.RefreshHwm(epoch, tvl);
      var postTvl := CheckedSub64(tvl, collateral);
      if postTvl.None? {
        return Some(Overflow);
      }
      if !VaultMath.HwmWithdrawalAllowed(postTvl.value, mark, pool.Header().floorBps) {
        return Some(WithdrawalBelowHwmFloor);
      }
      return None;
    }

    method ProcessWithdraw(user: Pubkey, lp: u64) returns (error: Option<Error>)
      requires Valid()
      modifies this, pool, pool.reserved
      ensures DoWithdraw(old(View()), user, lp) == if error.None? then Ok(View()) else Err(error.value)
    {
      var gate := CheckWithdraw(user, lp);
      if gate.Err? {
        return Some(gate.error);
      }
      var collateral := gate.value;
      error := EnforceHwm(collateral);
      if error.Some? {
        return;
      }
      error := PayOutInPlace(user, lp, collateral);
      if error.Some? {
        return;
      }
      error := BookWithdrawInPlace(user, lp, collateral);
    }

    /** LP burnt, collateral out of the vault. */
    method PayOutInPlace(user: Pubkey, lp: u64, collateral: u64) returns (error: Option<Error>)
      requires Valid()
      modifies this`balance, this`lpHeld, this`lpMintSupply
      ensures PayOut(old(View()), user, lp, collateral) == if error.None? then Ok(View()) else Err(error.value)
    {
      if Held(lpHeld, user) < lp || lpMintSupply < lp {
        return Some(BurnFailed);
      }
      lpHeld := lpHeld[user := Held(lpHeld, user) - lp];
      lpMintSupply := lpMintSupply - lp;
      if balance < collateral {
        return Some(VaultShort);
      }
      balance := balance - collateral;
      return None;
    }

    /** Pool totals and the user's record. */
    method BookWithdrawInPlace(user: Pubkey, lp: u64, collateral: u64) returns (error: Option<Error>)
      requires Valid() && user in records && lp <= records[user].lp
      modifies this`records, pool
      ensures BookWithdraw(old(View()), user, lp, collateral) == if error.None? then Ok(View()) else Err(error.value)
    {
      var withdrawn := CheckedAdd64(pool.totalWithdrawn, collateral);
      if withdrawn.None? {
        return Some(Overflow);
      }
      pool.totalWithdrawn := withdrawn.value;
      var supply := CheckedSub64(pool.totalLpSupply, lp);
      if supply.None? {
        return Some(Overflow);
      }
      pool.totalLpSupply := supply.value;
      records := records[user := records[user].(lp := records[user].lp - lp)];
      return None;
    }

    method ProcessFlushToInsurance(byAdmin: bool, amount: u64, cpiOk: bool) returns (error: Option<Error>)
      requires Valid()
      modifies this`balance, pool
      ensures DoFlush(old(View()), byAdmin, amount, cpiOk) == if error.None? then Ok(View()) else Err(error.value)
    {
      if amount == 0 {
        return Some(ZeroAmount);
      }
      if !pool.isInitialized {
        return Some(NotInitialized);
      }
      if pool.poolMode != INSURANCE_MODE {
        return Some(InvalidPoolMode);
      }
      if !byAdmin {
        return Some(Unauthorized);
      }
      var available := pool.View().FlushCeiling();
      if available.None? {
        return Some(Overflow);
      }
      if amount > available.value {
        return Some(InsufficientFunds);
      }
      if !cpiOk {
        return Some(CpiFailed);
      }
      if balance < amount {
        return Some(VaultShort);
      }
      balance := balance - amount;
      var flushed := CheckedAdd64(pool.totalFlushed, amount);
      if flushed.None? {
        return Some(Overflow);
      }
      pool.totalFlushed := flushed.value;
      return None;
    }

    method ProcessAdminWithdrawInsurance(byAdmin: bool, amount: u64, cpiOk: bool) returns (error: Option<Error>)
      requires Valid()
      modifies this`balance, pool
      ensures DoWithdrawInsurance(old(View()), byAdmin, amount, cpiOk)
           == if error.None? then Ok(View()) else Err(error.value)
    {
      if !pool.isInitialized {
        return Some(NotInitialized);
      }
      if !byAdmin {
        return Some(Unauthorized);
      }
      if pool.poolMode != INSURANCE_MODE {
        return Some(InvalidPoolMode);
      }
      if !cpiOk || balance + amount > U64_MAX {
        return Some(CpiFailed);
      }
      balance := balance + amount;
      var returned := CheckedAdd64(pool.totalReturned, amount);
      if returned.None? {
        return Some(Overflow);
      }
      pool.totalReturned := returned.value;
      return None;
    }

    method ProcessAccrueFees() returns (error: Option<Error>)
      requires Valid()
      modifies pool, pool.reserved
      ensures DoAccrueFees(old(View())) == if error.None? then Ok(View()) else Err(error.value)
    {
      if !pool.isInitialized {
        return Some(UninitializedAccount);
      }
      if pool.poolMode != TRADING_MODE {
        return Some(InvalidPoolMode);
      }
      if pool.totalLpSupply == 0 {
        pool.SetPreSupplyVaultOffset(balance);
        return None;
      }
      var baseline := pool.View().AccrualBaseline();
      if baseline.None? {
        return Some(Overflow);
      }
      var expected := CheckedAdd64(baseline.value, pool.Header().offset);
      if expected.None? {
        return Some(Overflow);
      }
      if balance > expected.value {
        var fees := CheckedAdd64(pool.totalFeesEarned, balance - expected.value);
        if fees.None? {
          return Some(Overflow);
        }
        pool.totalFeesEarned := fees.value;
      }
      return None;
    }

    method ProcessUpdateConfig(byAdmin: bool, newCooldown: Option<u64>, newCap: Option<u64>)
      returns (error: Option<Error>)
      requires Valid()
      modifies pool
      ensures DoUpdateConfig(old(View()), byAdmin, newCooldown, newCap)
           == if error.None? then Ok(View()) else Err(error.value)
    {
      if !pool.isInitialized {
        return Some(NotInitialized);
      }
      if !byAdmin {
        return Some(Unauthorized);
      }
      if newCooldown.Some? {
        pool.cooldownSlots := newCooldown.value;
      }
      if newCap.Some? {
        pool.depositCap := newCap.value;
      }
      return None;
    }

    /** The flag is written before the floor is validated; a refusal relies on the
        transaction being rolled back. */
    method ProcessAdminSetHwmConfig(byAdmin: bool, enabled: bool, bps: u16) returns (error: Option<Error>)
      requires Valid()
      modifies pool.reserved
      ensures DoSetHwmConfig(old(View()), byAdmin, enabled, bps) == if error.None? then Ok(View()) else Err(error.value)
    {
      if !pool.isInitialized {
        return Some(NotInitialized);
      }
      if !pool.Header().DiscriminatorOk() {
        return Some(InvalidAccount);
      }
      if !byAdmin {
        return Some(Unauthorized);
      }
      pool.SetHwmEnabled(enabled);
      if enabled {
        if bps == 0 || bps > BPS_DENOMINATOR {
          return Some(InvalidInstructionData);
        }
        pool.SetHwmFloorBps(bps);
      }
      return None;
    }

    method ProcessAdminResolveMarket(byAdmin: bool, cpiOk: bool) returns (error: Option<Error>)
      requires Valid()
      modifies pool.reserved
      ensures DoResolve(old(View()), byAdmin, cpiOk) == if error.None? then Ok(View()) else Err(error.value)
    {
      if !pool.isInitialized {
        return Some(NotInitialized);
      }
      if !byAdmin {
        return Some(Unauthorized);
      }
      if !cpiOk {
        return Some(CpiFailed);
      }
      pool.SetResolved();
      return None;
    }

    method MoveLp(from: Pubkey, to: Pubkey, amount: u64) returns (error: Option<Error>)
      requires Valid()
      modifies this`lpHeld
      ensures DoTransferLp(old(View()), from, to, amount) == if error.None? then Ok(View()) else Err(error.value)
    {
      if Held(lpHeld, from) < amount {
        return Some(EnvironmentRefused);
      }
      lpHeld := lpHeld[from := Held(lpHeld, from) - amount];
      if Held(lpHeld, to) + amount > U64_MAX {
        return Some(EnvironmentRefused);
      }
      lpHeld := lpHeld[to := Held(lpHeld, to) + amount];
      return None;
    }

    /** Steps of the world around the program. */
    method Environment(step: Step) returns (error: Option<Error>)
      requires Valid()
      requires step.AdvanceClock? || step.Donate? || step.TransferLp? || step.BurnLp?
      modifies this
      ensures Apply(old(View()), step) == if error.None? then Ok(View()) else Err(error.value)
    {
      match step
      case TransferLp(from, to, amount) =>
        error := MoveLp(from, to, amount);
      case AdvanceClock(toSlot, toEpoch) =>
        if toSlot < slot || toEpoch < epoch {
          return Some(EnvironmentRefused);
        }
        slot, epoch := toSlot, toEpoch;
        return None;
      case Donate(amount) =>
        if !pool.isInitialized || balance + amount > U64_MAX {
          return Some(EnvironmentRefused);
        }
        balance, donated := balance + amount, donated + amount;
        return None;
      case BurnLp(from, amount) =>
        if Held(lpHeld, from) < amount || lpMintSupply < amount {
          return Some(EnvironmentRefused);
        }
        lpHeld := lpHeld[from := Held(lpHeld, from) - amount];
        lpMintSupply := lpMintSupply - amount;
        return None;
    }

    /** The dispatcher of `process`. */
    method Dispatch(step: Step) returns (error: Option<Error>)
      requires Valid()
      modifies this, pool, pool.reserved
      ensures Apply(old(View()), step) == if error.None? then Ok(View()) else Err(error.value)
    {
      match step
      case InitPool(cooldown, cap, cpiOk) => error := ProcessInitPool(cooldown, cap, cpiOk);
      case InitTradingPool(cooldown, cap, cpiOk) => error := ProcessInitTradingPool(cooldown, cap, cpiOk);
      case Deposit(user, lpTo, amount, funded) => error := ProcessDeposit(user, lpTo, amount, funded);
      case Withdraw(user, lp) => error := ProcessWithdraw(user, lp);
      case FlushToInsurance(byAdmin, amount, cpiOk) => error := ProcessFlushToInsurance(byAdmin, amount, cpiOk);
      case WithdrawInsurance(byAdmin, amount, cpiOk) => error := ProcessAdminWithdrawInsurance(byAdmin, amount, cpiOk);
      case AccrueFees => error := ProcessAccrueFees();
      case UpdateConfig(byAdmin, cooldown, cap) => error := ProcessUpdateConfig(byAdmin, cooldown, cap);
      case SetHwmConfig(byAdmin, enabled, bps) => error := ProcessAdminSetHwmConfig(byAdmin, enabled, bps);
      case ResolveMarket(byAdmin, cpiOk) => error := ProcessAdminResolveMarket(byAdmin, cpiOk);
      case _ => error := Environment(step);
    }

    /** One transaction: dispatch, and put every account back on failure. */
    method Execute(step: Step) returns (error: Option<Error>)
      requires Valid()
      modifies this, pool, pool.reserved
      ensures View() == Next(old(View()), step)
      ensures error.None? <==> Apply(old(View()), step).Ok?
    {
      var bytes := pool.reserved[..];
      var saved := pool.View();
      var savedRecords, savedBalance, savedHeld, savedMint := records, balance, lpHeld, lpMintSupply;
      var savedSlot, savedEpoch := slot, epoch;
      ghost var savedDonated := donated;
      error := Dispatch(step);
      if error.Some? {
        records, balance, lpHeld, lpMintSupply := savedRecords, savedBalance, savedHeld, savedMint;
        slot, epoch := savedSlot, savedEpoch;
        donated := savedDonated;
        Restore(saved, bytes);
      }
    }

    method Restore(saved: Pool, bytes: seq<byte>)
      requires Valid() && |bytes| == RESERVED_SIZE && saved.header == Decode(bytes)
      modifies pool, pool.reserved
      ensures pool.View() == saved
    {
      pool.isInitialized, pool.poolMode := saved.initialized, saved.mode;
      pool.totalDeposited, pool.totalLpSupply := saved.deposited, saved.lpSupply;
      pool.cooldownSlots, pool.depositCap := saved.cooldown, saved.cap;
      pool.totalFlushed, pool.totalReturned := saved.flushed, saved.returned;
      pool.totalWithdrawn, pool.totalFeesEarned := saved.withdrawn, saved.fees;
      pool.Write(0, bytes);
      assert pool.reserved[..] == bytes;
    }

    /** The program refines the state machine over every list of transactions. */
    method ExecuteAll(steps: seq<Step>)
      requires Valid()
      modifies this, pool, pool.reserved
      ensures View() == Run(old(View()), steps)
    {
      for i := 0 to |steps|
        invariant Run(View(), steps[i..]) == Run(old(View()), steps)
      {
        var _ := Execute(steps[i]);
        assert steps[i..][1..] == steps[i + 1..];
      }
    }
  }
  /** Every execution of the program from zeroed accounts ends in a reachable state,
      so it satisfies the invariant and all that follows from it. */
  method Replay(slot: u64, epoch: u64, steps: seq<Step>) returns (vault: Vault)
    ensures fresh(vault) && vault.Valid()
    ensures vault.View() == Run(Initial(slot, epoch), steps)
    ensures Reachable(vault.View()) && Invariant.Inv(vault.View())
  {
    vault := new Vault(slot, epoch);
    vault.ExecuteAll(steps);
    assert Reachable(vault.View());
    Invariant.ReachableInv(vault.View());
  }
}
