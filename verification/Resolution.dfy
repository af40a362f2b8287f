/** Resolving the market is final. */
module Resolution {
  import opened Machine
  import opened VaultMachine
  import opened Invariant

  lemma StepKeepsResolved(s: State, step: Step)
    requires s.pool.header.resolved
    ensures Next(s, step).pool.header.resolved
    ensures Next(s, step).pool.lpSupply <= s.pool.lpSupply
  {
    var r := Apply(s, step);
    if r.Ok? && step.Withdraw? {
      WithdrawEffect(s, step.user, step.lp, r.value);
      HwmCheckKeepsHeader(s.pool, s.epoch, Paid(s, r.value), r.value.pool.header);
    }
  }

  /** From any state at all, through any configuration and toggling, a resolved pool
      stays resolved and its LP supply never grows. */
  lemma {:induction false} ResolutionIsPermanent(s: State, steps: seq<Step>)
    requires s.pool.header.resolved
    ensures Run(s, steps).pool.header.resolved
    ensures Run(s, steps).pool.lpSupply <= s.pool.lpSupply
    decreases steps
  {
    if steps != [] {
      StepKeepsResolved(s, steps[0]);
      ResolutionIsPermanent(Next(s, steps[0]), steps[1..]);
    }
  }

  /** After an accepted resolution no deposit is ever taken again. */
  lemma ResolvedMarketTakesNoDeposit(s: State, byAdmin: bool, cpiOk: bool, s1: State, steps: seq<Step>,
                                     user: Pubkey, lpTo: Pubkey, amount: u64, funded: bool)
    requires DoResolve(s, byAdmin, cpiOk) == Ok(s1)
    ensures DoDeposit(Run(s1, steps), user, lpTo, amount, funded).Err?
  {
    ResolutionIsPermanent(s1, steps);
  }
}
