/** The value of a pool account: lifetime counters, mode, configuration and the
    decoded header, with the value formulas of `src/state.rs`. */
module PoolState {
  import opened Machine
  import opened Reserved
  import VaultMath

  /** Insurance pools flush to and are refilled from the wrapper's insurance fund. */
  const INSURANCE_MODE: u8 := 0
  /** Trading pools earn fees that arrive as plain transfers into the vault. */
  const TRADING_MODE: u8 := 1

  datatype Pool = Pool(
    initialized: bool,
    mode: u8,
    deposited: u64,
    lpSupply: u64,
    cooldown: u64,
    cap: u64,
    flushed: u64,
    returned: u64,
    withdrawn: u64,
    fees: u64,
    header: Header)
  {
    function TotalPoolValue(): Option<u64> {
      var inflow :- CheckedAdd64(deposited, returned);
      var positives :- if mode == TRADING_MODE then CheckedAdd64(inflow, fees) else Some(inflow);
      var negatives :- CheckedAdd64(withdrawn, flushed);
      CheckedSub64(positives, negatives)
    }

    /** Vault balance the fee crank expects; anything above it is new fees. */
    function AccrualBaseline(): Option<u64> {
      var positives :- CheckedAdd64(deposited, fees);
      CheckedSub64(positives, withdrawn)
    }

    /** Flush ceiling, in the order the flush handler computes it. */
    function FlushCeiling(): Option<u64> {
      var inflow :- CheckedAdd64(deposited, returned);
      var kept :- CheckedSub64(inflow, withdrawn);
      CheckedSub64(kept, flushed)
    }

    function CalcLpForDeposit(amount: u64): Option<u64> {
      VaultMath.CalcLpForDeposit(lpSupply, TotalPoolValue().UnwrapOr(0), amount)
    }

    function CalcCollateralForWithdraw(lp: u64): Option<u64> {
      var value :- TotalPoolValue();
      VaultMath.CalcCollateralForWithdraw(lpSupply, value, lp)
    }

    /** Sum of the counters that add value, over the integers. */
    function Inflows(): nat {
      deposited + returned + if mode == TRADING_MODE then fees else 0
    }

    /** Pool value over the integers, whatever the widths do. */
    function NetValue(): int {
      Inflows() - withdrawn - flushed
    }

    /** The lifetime counters still fit the width they are added in. */
    predicate InRange() {
      Inflows() <= U64_MAX
    }
  }

  /** With no overdraft, the checked sum is the true value exactly as long as the
      lifetime counters are in range. */
  lemma ValueMeaning(p: Pool)
    requires p.NetValue() >= 0
    ensures p.TotalPoolValue() == if p.InRange() then Some(p.NetValue()) else None
  {
  }
}
