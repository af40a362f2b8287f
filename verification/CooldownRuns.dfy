/** The withdrawal cooldown over whole runs of the vault. */
module CooldownRuns {
  import opened Machine
  import opened Rounding
  import opened VaultMachine
  import opened Invariant
  import CooldownLaws

  /** The step is a deposit of the user, and goes through. */
  predicate DepositBy(s: State, step: Step, user: Pubkey) {
    step.Deposit? && step.user == user && Apply(s, step).Ok?
  }

  lemma StepKeepsSlotOrder(s: State, step: Step, user: Pubkey)
    requires Inv(s)
    ensures PositionOf(Next(s, step), user).slot >= PositionOf(s, user).slot
    ensures !DepositBy(s, step, user) ==> PositionOf(Next(s, step), user).slot == PositionOf(s, user).slot
    ensures Next(s, step).slot >= s.slot
  {
    match step
    case Deposit(u, lpTo, amount, funded) =>
      if Apply(s, step).Ok? {
        DepositMovesSlotForward(s, u, lpTo, amount, funded, Next(s, step));
      }
    case Withdraw(u, lp) =>
      if Apply(s, step).Ok? {
        WithdrawEffect(s, u, lp, Next(s, step));
      }
    case _ => OthersLeaveRecords(s, step);
  }

  predicate SlotMovedForward(s: State, user: Pubkey, s': State) {
    && user in s'.records && s'.records == s.records[user := s'.records[user]]
    && PositionOf(s, user).slot <= s'.records[user].slot <= s.slot
    && s'.records[user].lp == PositionOf(s, user).lp + Minted(s, s')
    && Minted(s, s') > 0
    && s.slot + CeilDiv(Minted(s, s') * s.pool.cooldown, s'.records[user].lp) <= s'.records[user].slot + s.pool.cooldown
  }

  /** An accepted deposit moves the user's slot forward, not past the clock, and
      makes the position wait at least the new LP's share of the cooldown. */
  lemma DepositMovesSlotForward(s: State, user: Pubkey, lpTo: Pubkey, amount: u64, funded: bool, s': State)
    requires Inv(s) && DoDeposit(s, user, lpTo, amount, funded) == Ok(s')
    ensures s'.slot == s.slot && SlotMovedForward(s, user, s')
  {
    DepositEffect(s, user, lpTo, amount, funded, s');
    SettledDeposit(s, user, lpTo, amount, funded, Minted(s, s'), s');
    var prior := PositionOf(s, user);
    CooldownLaws.TopUpWaitsItsShare(prior.lp, prior.slot, Minted(s, s'), s.slot, s.pool.cooldown);
  }

  /** No deposit of the user is accepted. */
  predicate NoDepositsBy(s: State, steps: seq<Step>, user: Pubkey)
    decreases steps
  {
    steps != [] ==> !DepositBy(s, steps[0], user) && NoDepositsBy(Next(s, steps[0]), steps[1..], user)
  }

  /** A user's slot never goes back, and only that user's deposits move it. */
  lemma {:induction false} RunKeepsSlotOrder(s: State, steps: seq<Step>, user: Pubkey)
    requires Inv(s)
    ensures PositionOf(Run(s, steps), user).slot >= PositionOf(s, user).slot
    ensures NoDepositsBy(s, steps, user) ==> PositionOf(Run(s, steps), user).slot == PositionOf(s, user).slot
    ensures Run(s, steps).slot >= s.slot
    decreases steps
  {
    if steps != [] {
      StepKeepsSlotOrder(s, steps[0], user);
      StepKeeps(s, steps[0]);
      RunKeepsSlotOrder(Next(s, steps[0]), steps[1..], user);
    }
  }

  lemma SlotNeverGoesBack(s: State, steps: seq<Step>, user: Pubkey)
    requires Reachable(s)
    ensures PositionOf(Run(s, steps), user).slot >= PositionOf(s, user).slot
  {
    ReachableInv(s);
    RunKeepsSlotOrder(s, steps, user);
  }

  /** For a deposit that led from s to s1 and a later state t: the position unlocks no
      later than one current cooldown after the deposit, and, if the cooldown was not
      lowered since, not before the deposit's own share of it has passed. */
  predicate WithinWindow(s: State, s1: State, user: Pubkey, t: State) {
    && user in s1.records && s1.records[user].lp >= Minted(s, s1) > 0
    && var unlock, wait := UnlockSlot(PositionOf(t, user), t.pool.cooldown),
                           CeilDiv(Minted(s, s1) * s.pool.cooldown, s1.records[user].lp);
       && unlock <= s.slot + t.pool.cooldown
       && (t.pool.cooldown >= s.pool.cooldown ==> unlock >= Min(U64_MAX, s.slot + wait))
  }

  lemma WindowFrom(s1: State, steps: seq<Step>, user: Pubkey, at: nat, cooldown: nat, wait: nat)
    requires Inv(s1) && NoDepositsBy(s1, steps, user)
    requires PositionOf(s1, user).slot <= at && at + wait <= PositionOf(s1, user).slot + cooldown
    ensures var t := Run(s1, steps);
      && UnlockSlot(PositionOf(t, user), t.pool.cooldown) <= at + t.pool.cooldown
      && (t.pool.cooldown >= cooldown ==> UnlockSlot(PositionOf(t, user), t.pool.cooldown) >= Min(U64_MAX, at + wait))
  {
    RunKeepsSlotOrder(s1, steps, user);
  }

  lemma WindowAfter(s: State, s1: State, user: Pubkey, steps: seq<Step>)
    requires Inv(s1) && NoDepositsBy(s1, steps, user) && SlotMovedForward(s, user, s1)
    ensures WithinWindow(s, s1, user, Run(s1, steps))
  {
    var wait := CeilDiv(Minted(s, s1) * s.pool.cooldown, s1.records[user].lp);
    WindowFrom(s1, steps, user, s.slot, s.pool.cooldown, wait);
  }

  /** The window holds in every state after a user's latest deposit. */
  lemma CooldownWindow(s: State, user: Pubkey, lpTo: Pubkey, amount: u64, funded: bool, steps: seq<Step>)
    requires Reachable(s)
    ensures var r := DoDeposit(s, user, lpTo, amount, funded);
      r.Ok? && NoDepositsBy(r.value, steps, user) ==> WithinWindow(s, r.value, user, Run(r.value, steps))
  {
    var r := DoDeposit(s, user, lpTo, amount, funded);
    if r.Ok? && NoDepositsBy(r.value, steps, user) {
      ReachableInv(s);
      DepositMovesSlotForward(s, user, lpTo, amount, funded, r.value);
      DepositKeeps(s, user, lpTo, amount, funded, r.value);
      WindowAfter(s, r.value, user, steps);
    }
  }

  lemma WindowBlocks(s: State, s1: State, user: Pubkey, t: State, lp: u64)
    requires WithinWindow(s, s1, user, t)
    requires 0 < s.pool.cooldown <= t.pool.cooldown && t.slot == s.slot < U64_MAX
    ensures DoWithdraw(t, user, lp).Err?
  {
    var minted := Minted(s, s1);
    CooldownLaws.FreshShareIsPositive(s1.records[user].lp - minted, minted, s.pool.cooldown);
    assert t.slot < UnlockSlot(PositionOf(t, user), t.pool.cooldown);
  }

  /** With a positive cooldown that was not lowered, nothing is withdrawn in the
      slot of the user's latest deposit. */
  lemma NoWithdrawalInDepositSlot(s: State, user: Pubkey, lpTo: Pubkey, amount: u64, funded: bool,
                                  steps: seq<Step>, lp: u64)
    requires Reachable(s) && 0 < s.pool.cooldown && s.slot < U64_MAX
    ensures var r := DoDeposit(s, user, lpTo, amount, funded);
      r.Ok? && NoDepositsBy(r.value, steps, user) ==>
        var t := Run(r.value, steps);
        t.slot == s.slot && t.pool.cooldown >= s.pool.cooldown ==> DoWithdraw(t, user, lp).Err?
  {
    CooldownWindow(s, user, lpTo, amount, funded, steps);
    var r := DoDeposit(s, user, lpTo, amount, funded);
    if r.Ok? && NoDepositsBy(r.value, steps, user) {
      var t := Run(r.value, steps);
      if t.slot == s.slot && t.pool.cooldown >= s.pool.cooldown {
        WindowBlocks(s, r.value, user, t, lp);
      }
    }
  }
}
