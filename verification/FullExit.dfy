/** Everybody can leave a trading pool, in any order, and no value is left behind. */
module FullExit {
  import opened PoolState
  import opened VaultMachine
  import opened Totals
  import opened Invariant
  import opened ShareLaws
  import opened Fairness
  import Solvency

  /** Each user of the list withdraws the whole position recorded in s. */
  function ExitSteps(s: State, order: seq<Pubkey>): seq<Step> {
    if order == [] then []
    else [Withdraw(order[0], PositionOf(s, order[0]).lp)] + ExitSteps(s, order[1..])
  }

  predicate AllAccepted(s: State, steps: seq<Step>)
    decreases steps
  {
    steps != [] ==> Apply(s, steps[0]).Ok? && AllAccepted(Next(s, steps[0]), steps[1..])
  }

  /** Collateral paid by each step. */
  function Payouts(s: State, steps: seq<Step>): (paid: seq<int>)
    ensures |paid| == |steps|
    decreases steps
  {
    if steps == [] then []
    else [Paid(s, Next(s, steps[0]))] + Payouts(Next(s, steps[0]), steps[1..])
  }

  function SumOf(xs: seq<int>): int {
    if xs == [] then 0 else xs[0] + SumOf(xs[1..])
  }

  /** The user may leave: unlocked, and still holding the LP that was recorded. */
  predicate CanLeave(s: State, user: Pubkey) {
    && user in s.records
    && 0 < s.records[user].lp <= Held(s.lpHeld, user)
    && UnlockSlot(s.records[user], s.pool.cooldown) <= s.slot
  }

  /** The order lists every holder once, and each may leave. */
  ghost predicate ReadyToExit(s: State, order: seq<Pubkey>) {
    && s.pool.mode == TRADING_MODE && s.pool.initialized && s.pool.InRange() && !s.pool.header.hwmEnabled
    && (forall i, j | 0 <= i < j < |order| :: order[i] != order[j])
    && (forall u | u in order :: CanLeave(s, u))
    && (forall u | u in s.records && s.records[u].lp > 0 :: u in order)
  }

  /** One departure: accepted, paid exactly the claim, and the rest may still go. */
  lemma OneLeaves(s: State, order: seq<Pubkey>)
    requires Inv(s) && order != [] && ReadyToExit(s, order)
    ensures var step := Withdraw(order[0], PositionOf(s, order[0]).lp);
      && Apply(s, step).Ok?
      && Paid(s, Next(s, step)) == Claim(s, order[0])
      && ReadyToExit(Next(s, step), order[1..])
      && Next(s, step).pool.NetValue() == s.pool.NetValue() - Claim(s, order[0])
      && Next(s, step).pool.fees == s.pool.fees && Next(s, step).donated == s.donated
  {
    var u := order[0];
    assert CanLeave(s, u);
    var lp := s.records[u].lp;
    PositionWithinSupply(s, u);
    Solvency.BurnInRange(s.pool, lp);
    ClaimMeaning(s, u);
    BurnKeepsCover(s.pool.lpSupply, s.pool.NetValue(), lp, Claim(s, u));
    Solvency.WithdrawAccepts(s, u, lp);
    var s1 := Next(s, Withdraw(u, lp));
    WithdrawEffect(s, u, lp, s1);
    RestReady(s, order, s1);
  }

  lemma RestReady(s: State, order: seq<Pubkey>, s1: State)
    requires order != [] && ReadyToExit(s, order) && order[0] in s.records
    requires var lp := s.records[order[0]].lp;
      && lp <= Held(s.lpHeld, order[0])
      && s1.records == s.records[order[0] := s.records[order[0]].(lp := 0)]
      && s1.lpHeld == s.lpHeld[order[0] := Held(s.lpHeld, order[0]) - lp]
    requires s1.slot == s.slot && s1.pool.cooldown == s.pool.cooldown
    requires s1.pool.mode == TRADING_MODE && s1.pool.initialized && s1.pool.InRange() && !s1.pool.header.hwmEnabled
    ensures ReadyToExit(s1, order[1..])
  {
    var rest := order[1..];
    forall u | u in rest
      ensures CanLeave(s1, u)
    {
      assert u in order && u != order[0];
      assert CanLeave(s, u);
    }
  }

  lemma {:induction false} SameExitSteps(s: State, s1: State, order: seq<Pubkey>)
    requires forall u | u in order :: PositionOf(s1, u) == PositionOf(s, u)
    ensures ExitSteps(s1, order) == ExitSteps(s, order)
    decreases order
  {
    if order != [] {
      SameExitSteps(s, s1, order[1..]);
    }
  }

  /** The others' positions are untouched and their claims do not shrink. */
  lemma OthersKeepClaims(s: State, order: seq<Pubkey>, i: nat)
    requires Inv(s) && 0 < i < |order| && ReadyToExit(s, order)
    ensures var s1 := Next(s, Withdraw(order[0], PositionOf(s, order[0]).lp));
      && PositionOf(s1, order[i]) == PositionOf(s, order[i])
      && Claim(s1, order[i]) >= Claim(s, order[i])
  {
    var u, v, lp := order[0], order[i], PositionOf(s, order[0]).lp;
    OneLeaves(s, order);
    var s1 := Next(s, Withdraw(u, lp));
    WithdrawKeeps(s, u, lp, s1);
    WithdrawKeepsPrice(s, u, lp, s1);
    assert v != u;
    StepSparesRecord(s, Withdraw(u, lp), v);
    assert CanLeave(s, v);
    PositionWithinSupply(s, v);
    PositionWithinSupply(s1, v);
    ClaimMeaning(s, v);
    ClaimMeaning(s1, v);
    ClaimFollowsPrice(PositionOf(s, v).lp, s.pool.lpSupply, s.pool.NetValue(), s1.pool.lpSupply, s1.pool.NetValue());
  }

  lemma RestKeepClaims(s: State, order: seq<Pubkey>, s1: State)
    requires Inv(s) && order != [] && ReadyToExit(s, order)
    requires s1 == Next(s, Withdraw(order[0], PositionOf(s, order[0]).lp))
    ensures ExitSteps(s1, order[1..]) == ExitSteps(s, order[1..])
    ensures forall i | 0 <= i < |order| - 1 :: Claim(s1, order[1..][i]) >= Claim(s, order[i + 1])
  {
    forall i | 0 < i < |order|
      ensures PositionOf(s1, order[i]) == PositionOf(s, order[i]) && Claim(s1, order[i]) >= Claim(s, order[i])
    {
      OthersKeepClaims(s, order, i);
    }
    SameExitSteps(s, s1, order[1..]);
  }

  lemma {:induction false} ExitFrom(s: State, order: seq<Pubkey>)
    requires Inv(s) && ReadyToExit(s, order)
    ensures var steps := ExitSteps(s, order);
      && |steps| == |order| && AllAccepted(s, steps)
      && (forall i | 0 <= i < |order| :: Payouts(s, steps)[i] >= Claim(s, order[i]))
      && SumOf(Payouts(s, steps)) == s.pool.NetValue()
      && Run(s, steps).pool.lpSupply == 0 && Run(s, steps).pool.NetValue() == 0
      && Run(s, steps).vault == s.donated - s.pool.fees
    decreases order
  {
    if order == [] {
      NobodyLeft(s);
    } else {
      var step, rest := Withdraw(order[0], PositionOf(s, order[0]).lp), order[1..];
      var s1 := Next(s, step);
      OneLeaves(s, order);
      StepKeeps(s, step);
      RestKeepClaims(s, order, s1);
      ExitFrom(s1, rest);
      ExitUnfolds(s, order, s1);
    }
  }

  lemma ExitUnfolds(s: State, order: seq<Pubkey>, s1: State)
    requires order != [] && ExitSteps(s1, order[1..]) == ExitSteps(s, order[1..])
    requires s1 == Next(s, Withdraw(order[0], PositionOf(s, order[0]).lp))
    ensures var steps, rest := ExitSteps(s, order), ExitSteps(s1, order[1..]);
      && |steps| == |rest| + 1
      && Run(s, steps) == Run(s1, rest)
      && Payouts(s, steps) == [Paid(s, s1)] + Payouts(s1, rest)
      && SumOf(Payouts(s, steps)) == Paid(s, s1) + SumOf(Payouts(s1, rest))
      && (AllAccepted(s, steps) <==> Apply(s, steps[0]).Ok? && AllAccepted(s1, rest))
  {
    var steps, rest := ExitSteps(s, order), ExitSteps(s1, order[1..]);
    assert steps[0] == Withdraw(order[0], PositionOf(s, order[0]).lp) && steps[1..] == rest;
    assert Payouts(s, steps)[1..] == Payouts(s1, rest);
  }

  lemma NobodyLeft(s: State)
    requires Inv(s) && ReadyToExit(s, [])
    ensures s.pool.lpSupply == 0 && s.pool.NetValue() == 0 && s.vault == s.donated - s.pool.fees
  {
    TotalOfZeroes(Positions(s.records));
  }

  /** From any reachable trading pool in range, with the drawdown guard off, every
      holder unlocked and holding their own LP: in any order all withdrawals are
      accepted, nobody gets less than the claim computed at the start, the payouts
      add up to the whole value and the pool ends without LP or value; the vault keeps
      exactly the donations that were never booked as fees. */
  lemma FullExitInAnyOrder(s: State, order: seq<Pubkey>)
    requires Reachable(s) && ReadyToExit(s, order)
    ensures var steps := ExitSteps(s, order);
      && |steps| == |order| && AllAccepted(s, steps)
      && (forall i | 0 <= i < |order| :: Payouts(s, steps)[i] >= Claim(s, order[i]))
      && SumOf(Payouts(s, steps)) == s.pool.NetValue()
      && Run(s, steps).pool.lpSupply == 0 && Run(s, steps).pool.NetValue() == 0
      && Run(s, steps).vault == s.donated - s.pool.fees
  {
    ReachableInv(s);
    ExitFrom(s, order);
  }
}
