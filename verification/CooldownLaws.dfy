/** What the cooldown slot formula means over the integers. */
module CooldownLaws {
  import opened Machine
  import opened Rounding
  import opened VaultMath

  /** The offset form is the floor of the plain weighted average, and neither the
      narrowing cast nor the saturating addition ever clips it. */
  lemma BlendIsWeightedAverage(existingLp: u64, existingSlot: u64, newLp: u64, currentSlot: u64)
    requires existingLp + newLp > 0
    ensures Min(existingSlot, currentSlot) + BlendOffset(existingLp, existingSlot, newLp, currentSlot) <= U64_MAX
    ensures BlendedSlot(existingLp, existingSlot, newLp, currentSlot)
         == (existingLp * existingSlot + newLp * currentSlot) / (existingLp + newLp)
    ensures Min(existingSlot, currentSlot)
         <= BlendedSlot(existingLp, existingSlot, newLp, currentSlot)
         <= Max(existingSlot, currentSlot)
  {
    if existingSlot <= currentSlot {
      BlendAbove(existingLp, existingSlot, newLp, currentSlot);
    } else {
      BlendAbove(newLp, currentSlot, existingLp, existingSlot);
    }
    OffsetMeaning(existingLp, existingSlot, newLp, currentSlot);
  }

  /** Only the side with the later slot contributes to the offset. */
  lemma OffsetMeaning(existingLp: u64, existingSlot: u64, newLp: u64, currentSlot: u64)
    requires existingLp + newLp > 0
    ensures BlendOffset(existingLp, existingSlot, newLp, currentSlot)
         == if existingSlot <= currentSlot
            then newLp * (currentSlot - existingSlot) / (existingLp + newLp)
            else existingLp * (existingSlot - currentSlot) / (newLp + existingLp)
  {
    var lo := Min(existingSlot, currentSlot);
    assert existingSlot <= currentSlot ==> existingLp * (existingSlot - lo) == 0;
    assert currentSlot <= existingSlot ==> newLp * (currentSlot - lo) == 0;
  }

  /** The arithmetic of one side: weights a and b, slots lo <= hi. */
  lemma BlendAbove(a: u64, lo: u64, b: u64, hi: u64)
    requires a + b > 0 && lo <= hi
    ensures 0 <= b * (hi - lo) / (a + b) <= hi - lo
    ensures lo + b * (hi - lo) / (a + b) == (a * lo + b * hi) / (a + b)
  {
    var t, w := a + b, b * (hi - lo);
    MulMono(0, b, hi - lo);
    MulMono(b, t, hi - lo);
    FloorAtMost(w, t, hi - lo);
    FloorBounds(w, t);
    assert a * lo + b * hi == lo * t + w;
    assert (lo + w / t) * t == lo * t + w / t * t;
    MulMono(0, lo, t);
    FloorIs(a * lo + b * hi, t, lo + w / t);
  }

  lemma AgedCreditMeaning(existingLp: u64, newLp: u64, cooldown: u64)
    requires existingLp + newLp > 0
    ensures AgedCredit(existingLp, newLp, cooldown) == existingLp * cooldown / (existingLp + newLp)
    ensures AgedCredit(existingLp, newLp, cooldown) <= cooldown
  {
    var t := existingLp + newLp;
    ProductFits(cooldown, existingLp);
    assert cooldown * existingLp == existingLp * cooldown;
    MulMono(existingLp, t, cooldown);
    FloorAtMost(existingLp * cooldown, t, cooldown);
    FloorBounds(existingLp * cooldown, t);
  }

  /** Closed form of the slot after a top-up: the position is backdated by its
      average age, rounded up, but by no more than the old LP's share of the
      cooldown, rounded down. */
  lemma CooldownClosedForm(existingLp: u64, existingSlot: u64, newLp: u64, currentSlot: u64, cooldown: u64)
    requires newLp > 0 && existingSlot <= currentSlot
    ensures WeightedDepositSlot(existingLp, existingSlot, newLp, currentSlot, cooldown)
         == currentSlot - Min(CeilDiv(existingLp * (currentSlot - existingSlot), existingLp + newLp),
                              existingLp * cooldown / (existingLp + newLp))
  {
    var t, age := existingLp + newLp, currentSlot - existingSlot;
    BlendIsWeightedAverage(existingLp, existingSlot, newLp, currentSlot);
    BlendAbove(existingLp, existingSlot, newLp, currentSlot);
    FloorCeilSplit(existingLp, newLp, age);
    AgedCreditMeaning(existingLp, newLp, cooldown);
  }

  /** After any top-up the position unlocks no earlier than the new LP's share of
      the cooldown, rounded up; never before the slot it already had. */
  lemma TopUpWaitsItsShare(existingLp: u64, existingSlot: u64, newLp: u64, currentSlot: u64, cooldown: u64)
    requires newLp > 0 && existingSlot <= currentSlot
    ensures var r := WeightedDepositSlot(existingLp, existingSlot, newLp, currentSlot, cooldown);
      && existingSlot <= r <= currentSlot
      && r + cooldown >= currentSlot + CeilDiv(newLp * cooldown, existingLp + newLp)
  {
    var t, age := existingLp + newLp, currentSlot - existingSlot;
    CooldownClosedForm(existingLp, existingSlot, newLp, currentSlot, cooldown);
    FloorCeilSplit(newLp, existingLp, cooldown);
    FloorCeilSplit(existingLp, newLp, age);
    BlendAbove(existingLp, existingSlot, newLp, currentSlot);
    AgedCreditMeaning(existingLp, newLp, cooldown);
  }

  /** A position that was already unlocked waits exactly that share. */
  lemma UnlockedTopUpWaitsExactly(existingLp: u64, existingSlot: u64, newLp: u64, currentSlot: u64, cooldown: u64)
    requires newLp > 0 && existingSlot + cooldown <= currentSlot
    ensures WeightedDepositSlot(existingLp, existingSlot, newLp, currentSlot, cooldown) + cooldown
         == currentSlot + CeilDiv(newLp * cooldown, existingLp + newLp)
  {
    var t, age := existingLp + newLp, currentSlot - existingSlot;
    CooldownClosedForm(existingLp, existingSlot, newLp, currentSlot, cooldown);
    FloorCeilSplit(newLp, existingLp, cooldown);
    CreditWithinAge(existingLp, t, cooldown, age);
  }

  lemma CreditWithinAge(lp: nat, total: nat, cooldown: nat, age: nat)
    requires total > 0 && cooldown <= age
    ensures lp * cooldown / total <= CeilDiv(lp * age, total)
  {
    FloorBounds(lp * cooldown, total);
    MulMono(cooldown, age, lp);
    assert age * lp == lp * age;
    CeilAtLeast(lp * age, total, lp * cooldown / total);
  }

  /** Only a zero cooldown lets a deposit be withdrawn in its own slot. */
  lemma FreshShareIsPositive(existingLp: u64, newLp: u64, cooldown: u64)
    requires newLp > 0 && cooldown > 0
    ensures CeilDiv(newLp * cooldown, existingLp + newLp) >= 1
  {
    MulMono(1, newLp, cooldown);
    CeilBounds(newLp * cooldown, existingLp + newLp);
  }
}
