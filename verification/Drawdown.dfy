/** The high-water mark bounds how far the value can fall inside one epoch. */
module Drawdown {
  import opened Machine
  import opened Rounding
  import opened PoolState
  import opened VaultMachine
  import opened Invariant
  import VaultMath
  import Solvency
  import Fairness

  /** A run inside one epoch without an accepted flush, with the guard on at floor bps
      all along. */
  predicate Guarded(s: State, steps: seq<Step>, bps: u16)
    decreases steps
  {
    && s.pool.header.hwmEnabled && s.pool.header.floorBps == bps
    && (steps != [] ==>
          && !(steps[0].FlushToInsurance? && Apply(s, steps[0]).Ok?)
          && Next(s, steps[0]).epoch == s.epoch
          && Guarded(Next(s, steps[0]), steps[1..], bps))
  }

  function Floor(value: nat, bps: nat): int { value * bps / BPS_DENOMINATOR }

  /** Since the moment the value was v: either it is still as high, or a withdrawal
      has put the mark at v or above and the value respects the floor. */
  predicate Tracks(s: State, v: nat, bps: u16) {
    || s.pool.NetValue() >= v
    || (s.pool.header.highWater >= v && s.pool.header.lastEpoch == s.epoch && s.pool.NetValue() >= Floor(v, bps))
  }

  lemma FloorMono(v: nat, w: nat, bps: nat)
    requires v <= w
    ensures Floor(v, bps) <= Floor(w, bps)
  {
    MulMono(v, w, bps);
    FloorBounds(v * bps, BPS_DENOMINATOR);
    FloorAtLeast(w * bps, BPS_DENOMINATOR, Floor(v, bps));
  }

  /** The mark a withdrawal is held to: the highest value recorded this epoch, the
      current one included; marks of earlier epochs are forgotten. */
  function Mark(s: State): int {
    if s.pool.header.lastEpoch == s.epoch then Max(s.pool.header.highWater, s.pool.NetValue()) else s.pool.NetValue()
  }

  /** The guard lets a payout through exactly when what remains is at least the floor
      share of the mark. */
  lemma GuardPassesIff(s: State, paid: u64)
    requires Reachable(s) && s.pool.header.hwmEnabled && s.pool.InRange() && paid <= s.pool.NetValue()
    ensures Mark(s) >= 0
    ensures HwmCheck(s.pool, s.epoch, paid).Ok? <==> s.pool.NetValue() - paid >= Floor(Mark(s), s.pool.header.floorBps)
  {
    ReachableInv(s);
    ValueMeaning(s.pool);
    VaultMath.HwmFloorMeaning(Mark(s), s.pool.header.floorBps);
  }

  /** Which withdrawals a pool of either mode takes, in terms a user can work
      out beforehand: totals in range, an unlocked position, the LP tokens for it, a payout of at least
      one unit, and a remainder above the floor share of the mark. */
  lemma WithdrawAcceptedIff(s: State, user: Pubkey, lp: u64)
    requires Reachable(s)
    ensures Mark(s) >= 0
    ensures DoWithdraw(s, user, lp).Ok? <==>
      && s.pool.InRange()
      && user in s.records && 0 < lp <= s.records[user].lp && lp <= Held(s.lpHeld, user)
      && s.slot >= Min(U64_MAX, s.records[user].slot + s.pool.cooldown)
      && lp * s.pool.NetValue() >= s.pool.lpSupply > 0
      && (s.pool.header.hwmEnabled ==>
            s.pool.NetValue() - lp * s.pool.NetValue() / s.pool.lpSupply >= Floor(Mark(s), s.pool.header.floorBps))
  {
    ReachableInv(s);
    ValueMeaning(s.pool);
    if s.pool.InRange() {
      Solvency.WithdrawAccepts(s, user, lp);
    }
    if s.pool.InRange() && user in s.records && 0 < lp <= s.records[user].lp {
      PositionWithinSupply(s, user);
      Solvency.BurnInRange(s.pool, lp);
      Solvency.QuotientPositiveIff(lp, s.pool.NetValue(), s.pool.lpSupply);
      if s.pool.header.hwmEnabled {
        GuardPassesIff(s, lp * s.pool.NetValue() / s.pool.lpSupply);
      }
    }
  }

  /** An accepted withdrawal leaves the value above the floor of the mark. */
  lemma WithdrawRespectsMark(s: State, user: Pubkey, lp: u64, s': State)
    requires Inv(s) && s.pool.header.hwmEnabled && DoWithdraw(s, user, lp) == Ok(s')
    ensures s'.pool.header.highWater == Mark(s) && s'.pool.header.lastEpoch == s.epoch == s'.epoch
    ensures s'.pool.NetValue() >= Floor(s'.pool.header.highWater, s.pool.header.floorBps)
  {
    WithdrawEffect(s, user, lp, s');
    BurnEffect(s.pool, lp, Paid(s, s'));
    ValueMeaning(s.pool);
    var h := s.pool.header.RefreshHwm(s.epoch, s.pool.NetValue());
    VaultMath.HwmFloorMeaning(h.highWater, h.floorBps);
  }

  lemma WithdrawTracks(s: State, user: Pubkey, lp: u64, s': State, v: nat)
    requires Inv(s) && s.pool.header.hwmEnabled && DoWithdraw(s, user, lp) == Ok(s')
    requires Tracks(s, v, s.pool.header.floorBps)
    ensures Tracks(s', v, s.pool.header.floorBps)
  {
    WithdrawRespectsMark(s, user, lp, s');
    FloorMono(v, s'.pool.header.highWater, s.pool.header.floorBps);
  }

  lemma DepositTracks(s: State, user: Pubkey, lpTo: Pubkey, amount: u64, funded: bool, s': State, v: nat)
    requires Inv(s) && DoDeposit(s, user, lpTo, amount, funded) == Ok(s')
    requires Tracks(s, v, s.pool.header.floorBps)
    ensures Tracks(s', v, s.pool.header.floorBps)
  {
    DepositEffect(s, user, lpTo, amount, funded, s');
    SettledDeposit(s, user, lpTo, amount, funded, Minted(s, s'), s');
  }

  lemma QuietKeepsMark(s: State, step: Step)
    requires !step.Deposit? && !step.Withdraw?
    ensures Next(s, step).pool.header.highWater == s.pool.header.highWater
    ensures Next(s, step).pool.header.lastEpoch == s.pool.header.lastEpoch
  {
  }

  lemma StepTracks(s: State, step: Step, v: nat)
    requires Inv(s) && s.pool.header.hwmEnabled && Next(s, step).epoch == s.epoch
    requires !(step.FlushToInsurance? && Apply(s, step).Ok?)
    requires Tracks(s, v, s.pool.header.floorBps)
    ensures Tracks(Next(s, step), v, s.pool.header.floorBps)
  {
    match step
    case Deposit(user, lpTo, amount, funded) =>
      if Apply(s, step).Ok? {
        DepositTracks(s, user, lpTo, amount, funded, Next(s, step), v);
      }
    case Withdraw(user, lp) =>
      if Apply(s, step).Ok? {
        WithdrawTracks(s, user, lp, Next(s, step), v);
      }
    case FlushToInsurance(_, _, _) =>
    case _ =>
      QuietKeepsMark(s, step);
      Fairness.QuietValueGrows(s, step);
  }

  lemma {:induction false} RunTracks(s: State, steps: seq<Step>, bps: u16, v: nat)
    requires Inv(s) && Guarded(s, steps, bps) && Tracks(s, v, bps)
    ensures Tracks(Run(s, steps), v, bps)
    decreases steps
  {
    if steps != [] {
      StepTracks(s, steps[0], v);
      StepKeeps(s, steps[0]);
      RunTracks(Next(s, steps[0]), steps[1..], bps, v);
    }
  }

  /** Between any two moments of a guarded run the value never falls below the floor
      share of the earlier value, although cranks and insurance returns raise the
      value without touching the mark. */
  lemma BoundedDrawdown(s: State, before: seq<Step>, after: seq<Step>, bps: u16)
    requires Reachable(s) && Guarded(s, before + after, bps)
    ensures Run(s, before).pool.NetValue() >= 0
    ensures Run(s, before + after).pool.NetValue() >= Floor(Run(s, before).pool.NetValue(), bps)
  {
    ReachableInv(s);
    RunKeeps(s, before);
    RunAppend(s, before, after);
    var t := Run(s, before);
    GuardedSuffix(s, before, after, bps);
    RunTracks(t, after, bps, t.pool.NetValue());
    FloorBelow(t.pool.NetValue(), bps);
  }

  // ------------------------------------------------------- the mark and the peak

  /** Highest value of all states of the run. */
  function Peak(s: State, steps: seq<Step>): int
    decreases steps
  {
    if steps == [] then s.pool.NetValue()
    else Max(s.pool.NetValue(), Peak(Next(s, steps[0]), steps[1..]))
  }

  /** The steps that can lose a peak: they lower the value and record nothing. */
  predicate Lowers(s: State, step: Step) {
    Apply(s, step).Ok? && (step.FlushToInsurance? || (step.Withdraw? && !s.pool.header.hwmEnabled))
  }

  /** Such a step is harmless when this epoch's record already covers the value. */
  predicate PeakRecorded(s: State, step: Step) {
    Lowers(s, step) ==> s.pool.header.lastEpoch == s.epoch && s.pool.header.highWater >= s.pool.NetValue()
  }

  /** Within an epoch a step takes the mark to the higher of mark and new value exactly
      when it does not lower an unrecorded value behind the guard's back. */
  lemma MarkFollowsIff(s: State, step: Step)
    requires Inv(s) && Next(s, step).epoch == s.epoch
    ensures Mark(Next(s, step)) == Max(Mark(s), Next(s, step).pool.NetValue()) <==> PeakRecorded(s, step)
  {
    var r := Apply(s, step);
    if r.Ok? {
      match step {
        case Deposit(user, lpTo, amount, funded) => DepositRaisesMark(s, user, lpTo, amount, funded, r.value);
        case Withdraw(user, lp) => WithdrawMovesMark(s, user, lp, r.value);
        case FlushToInsurance(byAdmin, amount, cpiOk) =>
        case InitPool(_, _, _) => SetupKeepsMark(s, step);
        case InitTradingPool(_, _, _) => SetupKeepsMark(s, step);
        case _ => QuietRaisesMark(s, step);
      }
    }
  }

  lemma SetupKeepsMark(s: State, step: Step)
    requires ModesSeparate(s) && (step.InitPool? || step.InitTradingPool?)
    ensures Next(s, step).pool.NetValue() == s.pool.NetValue() && Mark(Next(s, step)) == Mark(s)
  {
    QuietKeepsMark(s, step);
  }

  lemma QuietRaisesMark(s: State, step: Step)
    requires !step.InitPool? && !step.InitTradingPool? && !step.FlushToInsurance? && !step.Deposit? && !step.Withdraw?
    requires Next(s, step).epoch == s.epoch
    ensures Mark(Next(s, step)) == Max(Mark(s), Next(s, step).pool.NetValue())
  {
    QuietKeepsMark(s, step);
    if s.pool.initialized {
      Fairness.QuietValueGrows(s, step);
    }
  }

  lemma WithdrawMovesMark(s: State, user: Pubkey, lp: u64, s': State)
    requires Inv(s) && DoWithdraw(s, user, lp) == Ok(s')
    ensures Mark(s') == Max(Mark(s), s'.pool.NetValue()) <==> PeakRecorded(s, Withdraw(user, lp))
  {
    WithdrawEffect(s, user, lp, s');
    if s.pool.header.hwmEnabled {
      WithdrawRespectsMark(s, user, lp, s');
    }
  }

  lemma DepositRaisesMark(s: State, user: Pubkey, lpTo: Pubkey, amount: u64, funded: bool, s': State)
    requires Inv(s) && DoDeposit(s, user, lpTo, amount, funded) == Ok(s')
    ensures Mark(s') == Max(Mark(s), s'.pool.NetValue())
  {
    DepositEffect(s, user, lpTo, amount, funded, s');
    SettledDeposit(s, user, lpTo, amount, funded, Minted(s, s'), s');
    ValueMeaning(s'.pool);
  }

  predicate OneEpoch(s: State, steps: seq<Step>)
    decreases steps
  {
    steps != [] ==> Next(s, steps[0]).epoch == s.epoch && OneEpoch(Next(s, steps[0]), steps[1..])
  }

  predicate PeaksRecorded(s: State, steps: seq<Step>)
    decreases steps
  {
    steps != [] ==> PeakRecorded(s, steps[0]) && PeaksRecorded(Next(s, steps[0]), steps[1..])
  }

  /** Over such a run the mark is exactly the highest value of all its states, or the
      mark it started with, even though cranks and returns do not record theirs. */
  lemma {:induction false} MarkIsPeak(s: State, steps: seq<Step>)
    requires Inv(s) && OneEpoch(s, steps) && PeaksRecorded(s, steps)
    ensures Mark(Run(s, steps)) == Max(Mark(s), Peak(s, steps))
    decreases steps
  {
    if steps != [] {
      MarkFollowsIff(s, steps[0]);
      StepKeeps(s, steps[0]);
      MarkIsPeak(Next(s, steps[0]), steps[1..]);
    }
  }

  /** After the first n steps the mark is the peak so far. */
  predicate AtPeak(s: State, steps: seq<Step>, n: nat)
    requires n <= |steps|
  {
    Mark(Run(s, steps[..n])) == Max(Mark(s), Peak(s, steps[..n]))
  }

  predicate FollowsPeak(s: State, steps: seq<Step>) {
    forall n | 0 <= n <= |steps| :: AtPeak(s, steps, n)
  }

  /** Within an epoch the mark follows the peak throughout the run exactly when every
      step that lowers the value unguarded finds it recorded. */
  lemma {:induction false} MarkFollowsPeakIff(s: State, steps: seq<Step>)
    requires Inv(s) && OneEpoch(s, steps)
    ensures FollowsPeak(s, steps) <==> PeaksRecorded(s, steps)
    decreases steps
  {
    AtPeakFirst(s, steps);
    if steps != [] {
      MarkFollowsIff(s, steps[0]);
      if PeakRecorded(s, steps[0]) {
        StepKeeps(s, steps[0]);
        FollowsPeakNext(s, steps);
        MarkFollowsPeakIff(Next(s, steps[0]), steps[1..]);
      } else {
        assert !AtPeak(s, steps, 1);
      }
    }
  }

  lemma FollowsPeakNext(s: State, steps: seq<Step>)
    requires steps != []
    requires var s1 := Next(s, steps[0]); Mark(s1) == Max(Mark(s), s1.pool.NetValue())
    ensures FollowsPeak(s, steps) <==> FollowsPeak(Next(s, steps[0]), steps[1..])
  {
    var s1, rest := Next(s, steps[0]), steps[1..];
    if FollowsPeak(s, steps) {
      forall n | 0 <= n <= |rest|
        ensures AtPeak(s1, rest, n)
      {
        assert AtPeak(s, steps, n + 1);
        AtPeakNext(s, steps, n);
      }
    }
    if FollowsPeak(s1, rest) {
      AtPeakFirst(s, steps);
      forall n | 0 < n <= |steps|
        ensures AtPeak(s, steps, n)
      {
        assert AtPeak(s1, rest, n - 1);
        AtPeakNext(s, steps, n - 1);
      }
    }
  }

  lemma AtPeakFirst(s: State, steps: seq<Step>)
    ensures AtPeak(s, steps, 0)
    ensures steps != [] ==>
      var s1 := Next(s, steps[0]);
      AtPeak(s, steps, 1) <==> Mark(s1) == Max(Mark(s), s1.pool.NetValue())
  {
    assert steps[..0] == [];
    if steps != [] {
      var s1 := Next(s, steps[0]);
      assert steps[..1] == [steps[0]] && steps[..1][1..] == [];
      assert Run(s1, []) == s1 && Peak(s1, []) == s1.pool.NetValue();
    }
  }

  lemma AtPeakNext(s: State, steps: seq<Step>, n: nat)
    requires n < |steps|
    requires var s1 := Next(s, steps[0]); Mark(s1) == Max(Mark(s), s1.pool.NetValue())
    ensures AtPeak(s, steps, n + 1) <==> AtPeak(Next(s, steps[0]), steps[1..], n)
  {
    var s1, first := Next(s, steps[0]), steps[..n + 1];
    assert first[1..] == steps[1..][..n] && first[0] == steps[0];
    assert Run(s, first) == Run(s1, first[1..]);
    assert Peak(s, first) == Max(s.pool.NetValue(), Peak(s1, first[1..]));
    PeakCoversStart(s1, first[1..]);
  }

  /** A run with the guard on and no accepted flush meets the condition. */
  lemma {:induction false} GuardedRecords(s: State, steps: seq<Step>, bps: u16)
    requires Guarded(s, steps, bps)
    ensures OneEpoch(s, steps) && PeaksRecorded(s, steps)
    decreases steps
  {
    if steps != [] {
      GuardedRecords(Next(s, steps[0]), steps[1..], bps);
    }
  }

  /** After such a run that starts before anything was recorded in its epoch, a payout
      passes exactly when what remains is at least the floor share of the peak. */
  lemma GuardEnforcesPeak(s: State, steps: seq<Step>, paid: u64)
    requires Reachable(s) && OneEpoch(s, steps) && PeaksRecorded(s, steps) && s.pool.header.lastEpoch != s.epoch
    requires Run(s, steps).pool.InRange() && paid <= Run(s, steps).pool.NetValue()
    requires Run(s, steps).pool.header.hwmEnabled
    ensures var t := Run(s, steps);
      && Peak(s, steps) >= 0
      && (HwmCheck(t.pool, t.epoch, paid).Ok? <==>
            t.pool.NetValue() - paid >= Floor(Peak(s, steps), t.pool.header.floorBps))
  {
    ReachableInv(s);
    MarkIsPeak(s, steps);
    PeakCoversStart(s, steps);
    ReachableRun(s, steps);
    GuardPassesIff(Run(s, steps), paid);
  }

  lemma PeakCoversStart(s: State, steps: seq<Step>)
    ensures Peak(s, steps) >= s.pool.NetValue()
  {
  }

  // -------------------------------------------------------- what a record pins

  /** The mark a deposit stores with the guard on: in range the highest value recorded
      this epoch, its own included; out of range the value reads as zero. */
  function MarkStored(s: State, s': State): int {
    if s'.pool.InRange() then Max(Mark(s), s'.pool.NetValue())
    else if s.pool.header.lastEpoch == s.epoch then s.pool.header.highWater
    else 0
  }

  lemma DepositStoresMark(s: State, user: Pubkey, amount: u64, lp: u64, s': State)
    requires s.pool.NetValue() >= 0 && DepositBooked(s, user, amount, lp, s')
    ensures s.pool.header.hwmEnabled ==>
      s'.pool.header.highWater == MarkStored(s, s') && s'.pool.header.lastEpoch == s.epoch
    ensures !s.pool.header.hwmEnabled ==> s'.pool.header == s.pool.header
  {
    ValueMeaning(s'.pool);
  }

  lemma StepKeepsRecord(s: State, step: Step)
    requires Inv(s) && Next(s, step).epoch == s.epoch && s.pool.header.lastEpoch == s.epoch
    ensures Next(s, step).pool.header.lastEpoch == s.epoch
    ensures Next(s, step).pool.header.highWater >= s.pool.header.highWater
  {
    match step
    case Deposit(user, lpTo, amount, funded) =>
      if Apply(s, step).Ok? {
        DepositEffect(s, user, lpTo, amount, funded, Next(s, step));
        SettledDeposit(s, user, lpTo, amount, funded, Minted(s, Next(s, step)), Next(s, step));
        DepositStoresMark(s, user, amount, Minted(s, Next(s, step)), Next(s, step));
      }
    case Withdraw(user, lp) =>
      if Apply(s, step).Ok? {
        WithdrawEffect(s, user, lp, Next(s, step));
        if s.pool.header.hwmEnabled {
          WithdrawRespectsMark(s, user, lp, Next(s, step));
        }
      }
    case _ => QuietKeepsMark(s, step);
  }

  /** Within its epoch a recorded mark is never lowered, whatever is flushed, toggled or
      withdrawn. */
  lemma {:induction false} RunKeepsRecord(s: State, steps: seq<Step>)
    requires Inv(s) && OneEpoch(s, steps) && s.pool.header.lastEpoch == s.epoch
    ensures var t := Run(s, steps);
      t.epoch == s.epoch && t.pool.header.lastEpoch == s.epoch && t.pool.header.highWater >= s.pool.header.highWater
    decreases steps
  {
    if steps != [] {
      StepKeepsRecord(s, steps[0]);
      StepKeeps(s, steps[0]);
      RunKeepsRecord(Next(s, steps[0]), steps[1..]);
    }
  }

  lemma RecordBinds(s: State, steps: seq<Step>, user: Pubkey, lp: u64, t: State)
    requires Inv(s) && OneEpoch(s, steps) && s.pool.header.lastEpoch == s.epoch
    requires Run(s, steps).pool.header.hwmEnabled && DoWithdraw(Run(s, steps), user, lp) == Ok(t)
    ensures t.pool.NetValue() >= Floor(s.pool.header.highWater, t.pool.header.floorBps)
  {
    RunKeepsRecord(s, steps);
    RunKeeps(s, steps);
    var last := Run(s, steps);
    WithdrawEffect(last, user, lp, t);
    HwmCheckKeepsHeader(last.pool, last.epoch, Paid(last, t), t.pool.header);
    WithdrawRespectsMark(last, user, lp, t);
    FloorMono(s.pool.header.highWater, t.pool.header.highWater, t.pool.header.floorBps);
  }

  /** A deposit under the guard pins the floor for the rest of its epoch: however the
      value falls later, by flushes or with the guard off, no guarded withdrawal leaves
      less than the floor share of what the deposit recorded. */
  lemma DepositPinsFloor(s: State, depositor: Pubkey, lpTo: Pubkey, amount: u64, funded: bool, s1: State,
                         steps: seq<Step>, user: Pubkey, lp: u64, t: State)
    requires Reachable(s) && s.pool.header.hwmEnabled
    requires DoDeposit(s, depositor, lpTo, amount, funded) == Ok(s1) && s1.pool.InRange()
    requires OneEpoch(s1, steps) && Run(s1, steps).pool.header.hwmEnabled
    requires DoWithdraw(Run(s1, steps), user, lp) == Ok(t)
    ensures Max(Mark(s), s1.pool.NetValue()) >= 0
    ensures t.pool.NetValue() >= Floor(Max(Mark(s), s1.pool.NetValue()), t.pool.header.floorBps)
  {
    ReachableInv(s);
    DepositEffect(s, depositor, lpTo, amount, funded, s1);
    SettledDeposit(s, depositor, lpTo, amount, funded, Minted(s, s1), s1);
    DepositStoresMark(s, depositor, amount, Minted(s, s1), s1);
    DepositKeeps(s, depositor, lpTo, amount, funded, s1);
    RecordBinds(s1, steps, user, lp, t);
  }

  lemma FloorBelow(v: nat, bps: nat)
    requires bps <= BPS_DENOMINATOR
    ensures Floor(v, bps) <= v
  {
    MulMono(bps, BPS_DENOMINATOR, v);
    FloorAtMost(v * bps, BPS_DENOMINATOR, v);
  }

  lemma {:induction false} GuardedSuffix(s: State, before: seq<Step>, after: seq<Step>, bps: u16)
    requires Guarded(s, before + after, bps)
    ensures Guarded(Run(s, before), after, bps)
    decreases before
  {
    if before == [] {
      assert before + after == after;
    } else {
      assert (before + after)[1..] == before[1..] + after;
      GuardedSuffix(Next(s, before[0]), before[1..], after, bps);
    }
  }

  predicate EnablesGuard(s: State, step: Step) {
    step.SetHwmConfig? && step.enabled && Apply(s, step).Ok?
  }

  /** The guard is not enabled during the run. */
  predicate NoNewGuard(s: State, steps: seq<Step>)
    decreases steps
  {
    steps != [] ==> !EnablesGuard(s, steps[0]) && NoNewGuard(Next(s, steps[0]), steps[1..])
  }

  /** Disabling the guard, or anything else short of enabling it anew, keeps the
      configured floor, so a later enable never starts from a lost one. */
  lemma {:induction false} FloorSurvives(s: State, steps: seq<Step>)
    requires NoNewGuard(s, steps)
    ensures Run(s, steps).pool.header.floorBps == s.pool.header.floorBps
    decreases steps
  {
    if steps != [] {
      StepKeepsFloor(s, steps[0]);
      FloorSurvives(Next(s, steps[0]), steps[1..]);
    }
  }

  lemma StepKeepsFloor(s: State, step: Step)
    requires !EnablesGuard(s, step)
    ensures Next(s, step).pool.header.floorBps == s.pool.header.floorBps
  {
    match step
    case Deposit(user, lpTo, amount, funded) =>
      if Apply(s, step).Ok? {
        DepositEffect(s, user, lpTo, amount, funded, Next(s, step));
        SettledDeposit(s, user, lpTo, amount, funded, Minted(s, Next(s, step)), Next(s, step));
      }
    case Withdraw(user, lp) =>
      if Apply(s, step).Ok? {
        WithdrawEffect(s, user, lp, Next(s, step));
        HwmCheckKeepsHeader(s.pool, s.epoch, Paid(s, Next(s, step)), Next(s, step).pool.header);
      }
    case _ =>
  }
}
