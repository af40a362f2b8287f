/** The pool account against the list of accepted instructions: each lifetime counter
    is a sum over that list, and each setting is the one configured last. */
module History {
  import opened Machine
  import opened PoolState
  import opened VaultMachine
  import opened Invariant
  import Effects

  /** The steps of a run that were accepted, in order. */
  function Accepted(s: State, steps: seq<Step>): seq<Step>
    decreases steps
  {
    if steps == [] then []
    else if Apply(s, steps[0]).Ok? then [steps[0]] + Accepted(Next(s, steps[0]), steps[1..])
    else Accepted(s, steps[1..])
  }

  function Sum(amount: Step -> nat, log: seq<Step>): nat {
    if log == [] then 0 else amount(log[0]) + Sum(amount, log[1..])
  }

  /** The value set by the last step that sets one, or the default. */
  function Last<T>(field: Step -> Option<T>, log: seq<Step>, default: T): T {
    if log == [] then default else Last(field, log[1..], field(log[0]).UnwrapOr(default))
  }

  // ------------------------------------------------------ what a step is about

  function Deposits(step: Step): nat { if step.Deposit? then step.amount else 0 }
  function Flushes(step: Step): nat { if step.FlushToInsurance? then step.amount else 0 }
  function Returns(step: Step): nat { if step.WithdrawInsurance? then step.amount else 0 }
  function Donations(step: Step): nat { if step.Donate? then step.amount else 0 }

  function CooldownSet(step: Step): Option<u64> {
    match step
    case InitPool(cooldown, _, _) => Some(cooldown)
    case InitTradingPool(cooldown, _, _) => Some(cooldown)
    case UpdateConfig(_, newCooldown, _) => newCooldown
    case _ => None
  }

  function CapSet(step: Step): Option<u64> {
    match step
    case InitPool(_, cap, _) => Some(cap)
    case InitTradingPool(_, cap, _) => Some(cap)
    case UpdateConfig(_, _, newCap) => newCap
    case _ => None
  }

  function ModeSet(step: Step): Option<u8> {
    match step
    case InitPool(_, _, _) => Some(INSURANCE_MODE)
    case InitTradingPool(_, _, _) => Some(TRADING_MODE)
    case _ => None
  }

  function GuardSet(step: Step): Option<bool> {
    if step.SetHwmConfig? then Some(step.enabled) else None
  }

  function FloorSet(step: Step): Option<u16> {
    if step.SetHwmConfig? && step.enabled then Some(step.bps) else None
  }

  function ResolvedSet(step: Step): Option<bool> {
    if step.ResolveMarket? then Some(true) else None
  }

  /** Collateral an accepted step pays its user. */
  function Payout(s: State, step: Step): int {
    if step.Withdraw? && s.pool.lpSupply > 0 then step.lp * s.pool.NetValue() / s.pool.lpSupply else 0
  }

  /** LP an accepted step adds to the user's position. */
  function SharesMoved(s: State, step: Step, user: Pubkey): int {
    if step.Deposit? && step.user == user then Effects.Worth(s.pool, step.amount)
    else if step.Withdraw? && step.user == user then 0 - step.lp
    else 0
  }

  /** A quantity added up over the accepted steps of a run, each at its own state. */
  function Total(moved: (State, Step) -> int, s: State, steps: seq<Step>): int
    decreases steps
  {
    if steps == [] then 0
    else (if Apply(s, steps[0]).Ok? then moved(s, steps[0]) else 0) + Total(moved, Next(s, steps[0]), steps[1..])
  }

  // ------------------------------------------------------------------- one step

  predicate CountersMove(s: State, step: Step, s': State) {
    && s'.pool.deposited == s.pool.deposited + Deposits(step)
    && s'.pool.flushed == s.pool.flushed + Flushes(step)
    && s'.pool.returned == s.pool.returned + Returns(step)
    && s'.donated == s.donated + Donations(step)
  }

  predicate SettingsMove(s: State, step: Step, s': State) {
    PoolSettingsMove(s, step, s') && HeaderSettingsMove(s, step, s')
  }

  predicate PoolSettingsMove(s: State, step: Step, s': State) {
    && s'.pool.mode == ModeSet(step).UnwrapOr(s.pool.mode)
    && s'.pool.cooldown == CooldownSet(step).UnwrapOr(s.pool.cooldown)
    && s'.pool.cap == CapSet(step).UnwrapOr(s.pool.cap)
  }

  predicate HeaderSettingsMove(s: State, step: Step, s': State) {
    && s'.pool.header.hwmEnabled == GuardSet(step).UnwrapOr(s.pool.header.hwmEnabled)
    && s'.pool.header.floorBps == FloorSet(step).UnwrapOr(s.pool.header.floorBps)
    && s'.pool.header.resolved == ResolvedSet(step).UnwrapOr(s.pool.header.resolved)
  }

  lemma StepMoves(s: State, step: Step, s': State)
    requires Inv(s) && Apply(s, step) == Ok(s')
    ensures CountersMove(s, step, s') && SettingsMove(s, step, s')
  {
    match step
    case Deposit(user, lpTo, amount, funded) =>
      DepositEffect(s, user, lpTo, amount, funded, s');
      SettledDeposit(s, user, lpTo, amount, funded, Minted(s, s'), s');
    case Withdraw(user, lp) =>
      WithdrawEffect(s, user, lp, s');
      HwmCheckKeepsHeader(s.pool, s.epoch, Paid(s, s'), s'.pool.header);
    case _ =>
      OtherCountersMove(s, step, s');
      OtherPoolSettingsMove(s, step, s');
      OtherHeaderSettingsMove(s, step, s');
  }

  lemma OtherCountersMove(s: State, step: Step, s': State)
    requires ModesSeparate(s) && Apply(s, step) == Ok(s') && !step.Deposit? && !step.Withdraw?
    ensures CountersMove(s, step, s')
  {
  }

  lemma OtherPoolSettingsMove(s: State, step: Step, s': State)
    requires ModesSeparate(s) && Apply(s, step) == Ok(s') && !step.Deposit? && !step.Withdraw?
    ensures PoolSettingsMove(s, step, s')
  {
  }

  lemma OtherHeaderSettingsMove(s: State, step: Step, s': State)
    requires Apply(s, step) == Ok(s') && !step.Deposit? && !step.Withdraw?
    ensures HeaderSettingsMove(s, step, s')
  {
  }

  lemma StepPays(s: State, step: Step, s': State, user: Pubkey)
    requires Inv(s) && Apply(s, step) == Ok(s')
    ensures s'.pool.withdrawn == s.pool.withdrawn + Payout(s, step)
    ensures PositionOf(s', user).lp == PositionOf(s, user).lp + SharesMoved(s, step, user)
  {
    match step
    case Deposit(u, lpTo, amount, funded) =>
      DepositEffect(s, u, lpTo, amount, funded, s');
      SettledDeposit(s, u, lpTo, amount, funded, Minted(s, s'), s');
      MintEffect(s, amount, Minted(s, s'));
    case Withdraw(u, lp) =>
      WithdrawEffect(s, u, lp, s');
      BurnEffect(s.pool, lp, Paid(s, s'));
    case _ =>
      OtherStepsPayNothing(s, step, s');
  }

  lemma OtherStepsPayNothing(s: State, step: Step, s': State)
    requires ModesSeparate(s) && Apply(s, step) == Ok(s') && !step.Deposit? && !step.Withdraw?
    ensures s'.pool.withdrawn == s.pool.withdrawn && s'.records == s.records
  {
  }

  // ------------------------------------------------------------------- whole runs

  predicate CountersAre(s: State, log: seq<Step>, t: State) {
    && t.pool.deposited == s.pool.deposited + Sum(Deposits, log)
    && t.pool.flushed == s.pool.flushed + Sum(Flushes, log)
    && t.pool.returned == s.pool.returned + Sum(Returns, log)
    && t.donated == s.donated + Sum(Donations, log)
  }

  predicate SettingsAre(s: State, log: seq<Step>, t: State) {
    && t.pool.mode == Last(ModeSet, log, s.pool.mode)
    && t.pool.cooldown == Last(CooldownSet, log, s.pool.cooldown)
    && t.pool.cap == Last(CapSet, log, s.pool.cap)
    && t.pool.header.hwmEnabled == Last(GuardSet, log, s.pool.header.hwmEnabled)
    && t.pool.header.floorBps == Last(FloorSet, log, s.pool.header.floorBps)
    && t.pool.header.resolved == Last(ResolvedSet, log, s.pool.header.resolved)
  }

  /** From any state with the invariant, a run moves each counter by the sum of its
      accepted steps and leaves each setting at the last one configured. */
  lemma {:induction false} RunIsHistory(s: State, steps: seq<Step>)
    requires Inv(s)
    ensures CountersAre(s, Accepted(s, steps), Run(s, steps))
    ensures SettingsAre(s, Accepted(s, steps), Run(s, steps))
    decreases steps
  {
    if steps != [] {
      var s1 := Next(s, steps[0]);
      StepKeeps(s, steps[0]);
      RunIsHistory(s1, steps[1..]);
      if Apply(s, steps[0]).Ok? {
        StepMoves(s, steps[0], s1);
        Prepend(s, steps[0], s1, Accepted(s1, steps[1..]), Run(s1, steps[1..]));
      }
    }
  }

  lemma Prepend(s: State, step: Step, s1: State, log: seq<Step>, t: State)
    requires CountersMove(s, step, s1) && SettingsMove(s, step, s1)
    requires CountersAre(s1, log, t) && SettingsAre(s1, log, t)
    ensures CountersAre(s, [step] + log, t) && SettingsAre(s, [step] + log, t)
  {
    assert ([step] + log)[1..] == log;
  }

  /** Payouts are the floored shares of the accepted withdrawals, and a position is the
      worth of the user's accepted deposits less the LP withdrawn. */
  lemma {:induction false} RunPays(s: State, steps: seq<Step>, user: Pubkey)
    requires Inv(s)
    ensures Run(s, steps).pool.withdrawn == s.pool.withdrawn + Total(Payout, s, steps)
    ensures PositionOf(Run(s, steps), user).lp
         == PositionOf(s, user).lp + Total((s0, step) => SharesMoved(s0, step, user), s, steps)
    decreases steps
  {
    if steps != [] {
      var s1 := Next(s, steps[0]);
      StepKeeps(s, steps[0]);
      RunPays(s1, steps[1..], user);
      if Apply(s, steps[0]).Ok? {
        StepPays(s, steps[0], s1, user);
      }
    }
  }

  /** The counters are sums over the accepted instructions, the vault balance is what
      came in less what went out, and the settings are the last ones configured. */
  predicate IsHistory(s: State, steps: seq<Step>) {
    var t, log, paid := Run(s, steps), Accepted(s, steps), Total(Payout, s, steps);
    && t.pool.deposited == Sum(Deposits, log) && t.pool.flushed == Sum(Flushes, log)
    && t.pool.returned == Sum(Returns, log) && t.donated == Sum(Donations, log)
    && t.pool.withdrawn == paid
    && t.vault == Sum(Deposits, log) + Sum(Returns, log) + Sum(Donations, log) - Sum(Flushes, log) - paid
    && t.pool.mode == Last(ModeSet, log, INSURANCE_MODE)
    && t.pool.cooldown == Last(CooldownSet, log, 0) && t.pool.cap == Last(CapSet, log, 0)
    && t.pool.header.hwmEnabled == Last(GuardSet, log, false)
    && t.pool.header.floorBps == Last(FloorSet, log, 0)
    && t.pool.header.resolved == Last(ResolvedSet, log, false)
  }

  /** Every execution from zeroed accounts is its history. */
  lemma VaultIsHistory(slot: u64, epoch: u64, steps: seq<Step>)
    ensures IsHistory(Initial(slot, epoch), steps)
  {
    InitialInv(slot, epoch);
    FromZero(Initial(slot, epoch), steps);
  }

  lemma FromZero(s: State, steps: seq<Step>)
    requires Inv(s) && s.donated == 0 && s.pool.mode == INSURANCE_MODE && s.pool.cooldown == 0 && s.pool.cap == 0
    requires s.pool.deposited == 0 && s.pool.flushed == 0 && s.pool.returned == 0 && s.pool.withdrawn == 0
    requires !s.pool.header.hwmEnabled && s.pool.header.floorBps == 0 && !s.pool.header.resolved
    ensures IsHistory(s, steps)
  {
    RunIsHistory(s, steps);
    RunPays(s, steps, 0);
    BalanceOf(s, steps);
  }

  lemma BalanceOf(s: State, steps: seq<Step>)
    requires Inv(s)
    ensures VaultMatches(Run(s, steps))
  {
    RunKeeps(s, steps);
  }

  /** What `Last` means: a setting followed by none for the same field is in force. */
  lemma {:induction false} LastIsInForce<T>(field: Step -> Option<T>, before: seq<Step>, step: Step, after: seq<Step>,
                                            default: T)
    requires field(step).Some? && forall later | later in after :: field(later).None?
    ensures Last(field, before + [step] + after, default) == field(step).value
    decreases before
  {
    var log := before + [step] + after;
    if before == [] {
      assert log[0] == step && log[1..] == after;
      NothingSet(field, after, field(step).value);
    } else {
      assert log[0] == before[0] && log[1..] == before[1..] + [step] + after;
      LastIsInForce(field, before[1..], step, after, field(before[0]).UnwrapOr(default));
    }
  }

  lemma {:induction false} NothingSet<T>(field: Step -> Option<T>, log: seq<Step>, default: T)
    requires forall step | step in log :: field(step).None?
    ensures Last(field, log, default) == default
    decreases log
  {
    if log != [] {
      NothingSet(field, log[1..], default);
    }
  }
}
