/** The pure arithmetic of `src/math.rs`, with the machine widths it runs at. */
module VaultMath {
  import opened Machine
  import opened Rounding

  /** LP tokens minted for a deposit. The two `None` branches in the middle keep
      orphaned value and fully flushed pools closed to new deposits. */
  function CalcLpForDeposit(supply: u64, value: u64, amount: u64): Option<u64> {
    if supply == 0 && value == 0 then Some(amount)
    else if supply == 0 then None
    else if value == 0 then None
    else
      var product :- CheckedMul128(amount, supply);
      var lp :- CheckedDiv128(product, value);
      Narrow64(lp)
  }

  /** Collateral paid for burning LP tokens. */
  function CalcCollateralForWithdraw(supply: u64, value: u64, lp: u64): Option<u64> {
    if supply == 0 then None
    else
      var product :- CheckedMul128(lp, value);
      var collateral :- CheckedDiv128(product, supply);
      Narrow64(collateral)
  }

  /** Saturating form of the flush ceiling. */
  function FlushAvailable(deposited: u64, returned: u64, withdrawn: u64, flushed: u64): u64 {
    SaturatingSub64(SaturatingSub64(SaturatingAdd64(deposited, returned), withdrawn), flushed)
  }

  function HwmFloor(highWater: u64, bps: u16): Option<u64> {
    var product :- CheckedMul128(highWater, bps);
    var floor :- CheckedDiv128(product, BPS_DENOMINATOR);
    Narrow64(floor)
  }

  predicate HwmWithdrawalAllowed(postTvl: u64, highWater: u64, bps: u16) {
    match HwmFloor(highWater, bps)
    case Some(floor) => postTvl >= floor
    case None => false
  }

  lemma ProductFits(a: u64, b: u64)
    ensures 0 <= a * b <= U64_MAX * U64_MAX <= U128_MAX
  {
    MulMono(a, U64_MAX, b);
    MulMono(b, U64_MAX, U64_MAX);
  }

  /** What a mint is worth, free of the machine widths: with positive supply and
      value the u128 product never overflows and the only failure left is a
      result wider than u64. */
  lemma MintMeaning(supply: u64, value: u64, amount: u64)
    requires supply > 0 && value > 0
    ensures CalcLpForDeposit(supply, value, amount)
         == if amount * supply / value <= U64_MAX then Some(amount * supply / value) else None
  {
    ProductFits(amount, supply);
    FloorBounds(amount * supply, value);
  }

  lemma BurnMeaning(supply: u64, value: u64, lp: u64)
    requires supply > 0
    ensures CalcCollateralForWithdraw(supply, value, lp)
         == if lp * value / supply <= U64_MAX then Some(lp * value / supply) else None
  {
    ProductFits(lp, value);
    FloorBounds(lp * value, supply);
  }

  /** The drawdown floor needs no overflow case for a real basis-point value. */
  lemma HwmFloorMeaning(highWater: u64, bps: u16)
    requires bps <= BPS_DENOMINATOR
    ensures highWater * bps / BPS_DENOMINATOR <= highWater
    ensures HwmFloor(highWater, bps) == Some(highWater * bps / BPS_DENOMINATOR)
  {
    ProductFits(highWater, bps);
    MulMono(bps, BPS_DENOMINATOR, highWater);
    FloorAtMost(highWater * bps, BPS_DENOMINATOR, highWater);
  }

  /** The stake-weighted part of the cooldown slot, in the overflow-safe offset
      form: only the spans above the lower slot are blended. */
  function BlendOffset(existingLp: u64, existingSlot: u64, newLp: u64, currentSlot: u64): u128
    requires existingLp + newLp > 0
  {
    var totalLp: u128 := existingLp + newLp;
    var lo := Min(existingSlot, currentSlot);
    var existingSpan: u64 := existingSlot - lo;
    var currentSpan: u64 := currentSlot - lo;
    ProductFits(existingLp, existingSpan);
    ProductFits(newLp, currentSpan);
    var existingPart: u128 := existingLp * existingSpan;
    var currentPart: u128 := newLp * currentSpan;
    assert existingPart == 0 || currentPart == 0;
    var weightedSpan: u128 := existingPart + currentPart;
    Quotient(weightedSpan, totalLp)
  }

  function BlendedSlot(existingLp: u64, existingSlot: u64, newLp: u64, currentSlot: u64): u64
    requires existingLp + newLp > 0
  {
    SaturatingAdd64(Min(existingSlot, currentSlot),
                    Truncate64(BlendOffset(existingLp, existingSlot, newLp, currentSlot)))
  }

  /** The share of the cooldown already served by the older LP. */
  function AgedCredit(existingLp: u64, newLp: u64, cooldown: u64): u64
    requires existingLp + newLp > 0
  {
    ProductFits(cooldown, existingLp);
    var product: u128 := cooldown * existingLp;
    var credit := Quotient(product, existingLp + newLp);
    Truncate64(Min(credit, U64_MAX))
  }

  /** Slot from which a topped-up position serves its cooldown. */
  function WeightedDepositSlot(existingLp: u64, existingSlot: u64, newLp: u64, currentSlot: u64, cooldown: u64): u64 {
    if existingLp + newLp == 0 then currentSlot
    else
      var blended := BlendedSlot(existingLp, existingSlot, newLp, currentSlot);
      if newLp > 0 then
        Max(blended, SaturatingSub64(currentSlot, AgedCredit(existingLp, newLp, cooldown)))
      else blended
  }
}
