/** Laws of the mint and burn formulas: the share price never falls, a round trip
    loses a bounded amount, and no list of operations beats a single one. */
module ShareLaws {
  import opened Machine
  import opened Rounding
  import opened VaultMath

  /** Price of state (s1, p1) is at least the price of (s0, p0), cross-multiplied. */
  ghost predicate PriceAtLeast(s1: int, p1: int, s0: int, p0: int) {
    p1 * s0 >= p0 * s1
  }

  lemma MintKeepsPrice(supply: nat, value: nat, amount: nat, lp: nat)
    requires value > 0 && lp == amount * supply / value
    ensures PriceAtLeast(supply + lp, value + amount, supply, value)
  {
    FloorBounds(amount * supply, value);
    assert (value + amount) * supply == value * supply + amount * supply;
    assert value * (supply + lp) == value * supply + lp * value;
  }

  lemma BurnKeepsPrice(supply: nat, value: nat, lp: nat, paid: nat)
    requires supply > 0 && lp <= supply && paid == lp * value / supply
    ensures paid <= value
    ensures lp == supply ==> paid == value
    ensures PriceAtLeast(supply - lp, value - paid, supply, value)
  {
    FloorBounds(lp * value, supply);
    MulMono(lp, supply, value);
    FloorAtMost(lp * value, supply, value);
    if lp == supply {
      FloorIs(lp * value, supply, value);
    }
    assert (value - paid) * supply == value * supply - paid * supply;
    assert value * (supply - lp) == value * supply - lp * value;
  }

  /** A pool whose value covers its supply keeps doing so: mints round down. */
  lemma MintKeepsCover(supply: nat, value: nat, amount: nat, lp: nat)
    requires 0 < supply <= value && lp == amount * supply / value
    ensures lp <= amount
  {
    MulMono(supply, value, amount);
    FloorAtMost(amount * supply, value, amount);
  }

  /** Burning part of a covered pool pays at least one unit per LP and leaves at
      least one unit per remaining LP. */
  lemma BurnKeepsCover(supply: nat, value: nat, lp: nat, paid: nat)
    requires 0 < supply <= value && lp <= supply && paid == lp * value / supply
    ensures paid >= lp
    ensures value - paid >= supply - lp
  {
    MulMono(supply, value, lp);
    FloorAtLeast(lp * value, supply, lp);
    MulMono(0, value - supply, supply - lp);
    assert (value - supply) * (supply - lp) == (value - supply + lp) * supply - lp * value;
    FloorAtMost(lp * value, supply, value - supply + lp);
  }

  lemma PriceTransitive(s0: nat, p0: nat, s1: nat, p1: nat, s2: nat, p2: nat)
    requires s1 > 0
    requires PriceAtLeast(s1, p1, s0, p0) && PriceAtLeast(s2, p2, s1, p1)
    ensures PriceAtLeast(s2, p2, s0, p0)
  {
    MulMono(p0 * s1, p1 * s0, s2);
    MulMono(p1 * s2, p2 * s1, s0);
    assert p0 * s2 * s1 == p0 * s1 * s2;
    assert p1 * s0 * s2 == p1 * s2 * s0;
    assert p2 * s1 * s0 == p2 * s0 * s1;
    MulCancel(p0 * s2, p2 * s0, s1);
  }

  /** What a rising price leaves for the net effect of any activity. */
  lemma PriceCapsTheNet(s0: nat, p0: nat, s1: nat, p1: nat)
    requires s0 > 0 && PriceAtLeast(s1, p1, s0, p0)
    ensures s1 <= s0 ==> p0 - p1 <= (s0 - s1) * p0 / s0
    ensures s1 >= s0 ==> (p1 - p0) * s0 >= (s1 - s0) * p0
  {
    if s1 <= s0 {
      assert (s0 - s1) * p0 == s0 * p0 - p0 * s1;
      assert (p0 - p1) * s0 == s0 * p0 - p1 * s0;
      MulMono(0, s0 - s1, p0);
      FloorAtLeast((s0 - s1) * p0, s0, p0 - p1);
    }
  }

  /** A higher price never lowers what a fixed holding is worth. */
  lemma ClaimFollowsPrice(lp: nat, s0: nat, p0: nat, s1: nat, p1: nat)
    requires s0 > 0 && s1 > 0
    requires PriceAtLeast(s1, p1, s0, p0)
    ensures lp * p0 / s0 <= lp * p1 / s1
  {
    var q := lp * p0 / s0;
    FloorBounds(lp * p0, s0);
    MulMono(q * s0, lp * p0, s1);
    MulMono(p0 * s1, p1 * s0, lp);
    assert q * s0 * s1 == q * s1 * s0;
    assert lp * p0 * s1 == p0 * s1 * lp;
    assert p1 * s0 * lp == lp * p1 * s0;
    MulCancel(q * s1, lp * p1, s0);
    FloorAtLeast(lp * p1, s1, q);
  }

  // ---------------------------------------------------------------- round trip

  /** A deposit and the burn of what it minted both have a result; the first deposit
      into an empty pool is one of them. */
  ghost predicate RoundTrip(supply: u64, value: u64, amount: u64, lp: u64, back: u64) {
    && supply + lp <= U64_MAX && value + amount <= U64_MAX
    && CalcLpForDeposit(supply, value, amount) == Some(lp)
    && CalcCollateralForWithdraw(supply + lp, value + amount, lp) == Some(back)
  }

  /** Depositing and burning at once never gains, and loses less than one unit
      plus the price of one LP token. */
  lemma RoundTripLossBounds(supply: u64, value: u64, amount: u64, lp: u64, back: u64)
    requires RoundTrip(supply, value, amount, lp, back)
    ensures back <= amount
    ensures (amount - back - 1) * (supply + lp) < value
  {
    if supply == 0 {
      FirstTripIsLossless(value, amount, lp, back);
    } else {
      RoundTripMeaning(supply, value, amount, lp, back);
      RoundTripAlgebra(supply, value, amount, lp, back);
    }
  }

  lemma FirstTripIsLossless(value: u64, amount: u64, lp: u64, back: u64)
    requires RoundTrip(0, value, amount, lp, back)
    ensures value == 0 && lp == amount == back > 0
  {
    BurnMeaning(lp, amount, lp);
    FloorIs(lp * amount, lp, amount);
  }

  lemma RoundTripMeaning(supply: u64, value: u64, amount: u64, lp: u64, back: u64)
    requires RoundTrip(supply, value, amount, lp, back) && supply > 0
    ensures value > 0 && lp * value <= amount * supply < lp * value + value
    ensures lp == amount * supply / value
    ensures back * (supply + lp) <= lp * (value + amount) < back * (supply + lp) + (supply + lp)
  {
    MintMeaning(supply, value, amount);
    BurnMeaning(supply + lp, value + amount, lp);
    FloorBounds(amount * supply, value);
    FloorBounds(lp * (value + amount), supply + lp);
  }

  lemma RoundTripAlgebra(supply: nat, value: nat, amount: nat, lp: nat, back: nat)
    requires supply + lp > 0
    requires lp * value <= amount * supply < lp * value + value
    requires back * (supply + lp) <= lp * (value + amount) < back * (supply + lp) + (supply + lp)
    ensures back <= amount
    ensures (amount - back - 1) * (supply + lp) < value
    ensures back == amount <==> lp * value == amount * supply
  {
    var t := supply + lp;
    assert lp * (value + amount) == lp * value + lp * amount;
    assert amount * t == amount * supply + lp * amount;
    MulCancel(back, amount, t);
    assert (amount - back - 1) * t == amount * t - (back * t + t);
    if lp * value == amount * supply {
      if back < amount {
        MulMono(back + 1, amount, t);
      }
    }
  }

  /** The trip is lossless exactly when the mint did not round. */
  lemma RoundTripLosslessIff(supply: u64, value: u64, amount: u64, lp: u64, back: u64)
    requires RoundTrip(supply, value, amount, lp, back)
    ensures back == amount <==> value == 0 || amount * supply % value == 0
  {
    if supply == 0 {
      FirstTripIsLossless(value, amount, lp, back);
    } else {
      RoundTripMeaning(supply, value, amount, lp, back);
      RoundTripAlgebra(supply, value, amount, lp, back);
      FloorExactIff(amount * supply, value);
    }
  }

  // ------------------------------------------------------- lists of operations

  datatype ShareOp = Mint(amount: u64) | Burn(lp: u64)

  datatype Shares = Shares(supply: u64, value: u64)

  function ApplyOp(s: Shares, op: ShareOp): Option<Shares> {
    match op
    case Mint(amount) =>
      var lp :- CalcLpForDeposit(s.supply, s.value, amount);
      var supply :- CheckedAdd64(s.supply, lp);
      var value :- CheckedAdd64(s.value, amount);
      Some(Shares(supply, value))
    case Burn(lp) =>
      var paid :- CalcCollateralForWithdraw(s.supply, s.value, lp);
      var supply :- CheckedSub64(s.supply, lp);
      var value :- CheckedSub64(s.value, paid);
      Some(Shares(supply, value))
  }

  function RunOps(s: Shares, ops: seq<ShareOp>): Option<Shares>
    decreases ops
  {
    if ops == [] then Some(s)
    else
      var next :- ApplyOp(s, ops[0]);
      RunOps(next, ops[1..])
  }

  /** Every operation of the list starts from a positive supply. */
  predicate SupplyLasts(s: Shares, ops: seq<ShareOp>)
    decreases ops
  {
    ops != [] ==>
      && s.supply > 0
      && (ApplyOp(s, ops[0]).Some? ==> SupplyLasts(ApplyOp(s, ops[0]).value, ops[1..]))
  }

  lemma OpKeepsPrice(s: Shares, op: ShareOp, next: Shares)
    requires s.supply > 0 && ApplyOp(s, op) == Some(next)
    ensures PriceAtLeast(next.supply, next.value, s.supply, s.value)
  {
    match op
    case Mint(amount) =>
      MintMeaning(s.supply, s.value, amount);
      MintKeepsPrice(s.supply, s.value, amount, amount * s.supply / s.value);
    case Burn(lp) =>
      BurnMeaning(s.supply, s.value, lp);
      BurnKeepsPrice(s.supply, s.value, lp, lp * s.value / s.supply);
  }

  lemma {:induction false} OpsKeepPrice(s: Shares, ops: seq<ShareOp>, end: Shares)
    requires SupplyLasts(s, ops) && RunOps(s, ops) == Some(end)
    ensures PriceAtLeast(end.supply, end.value, s.supply, s.value)
    decreases ops
  {
    if ops != [] {
      var next := ApplyOp(s, ops[0]).value;
      OpKeepsPrice(s, ops[0], next);
      OpsKeepPrice(next, ops[1..], end);
      if next.supply > 0 {
        PriceTransitive(s.supply, s.value, next.supply, next.value, end.supply, end.value);
      } else {
        assert ops[1..] == [];
      }
    }
  }

  /** Any interleaving that burns net k LP is paid at most one burn of k, and one
      that mints net m LP costs at least m at the starting price. */
  lemma NoListBeatsOneOperation(s: Shares, ops: seq<ShareOp>, end: Shares)
    requires s.supply > 0 && SupplyLasts(s, ops) && RunOps(s, ops) == Some(end)
    ensures end.supply <= s.supply ==>
              s.value - end.value <= (s.supply - end.supply) * s.value / s.supply
    ensures end.supply >= s.supply ==>
              (end.value - s.value) * s.supply >= (end.supply - s.supply) * s.value
  {
    OpsKeepPrice(s, ops, end);
    PriceCapsTheNet(s.supply, s.value, end.supply, end.value);
  }

  function Sum(xs: seq<u64>): nat {
    if xs == [] then 0 else xs[0] + Sum(xs[1..])
  }

  function Burns(pieces: seq<u64>): seq<ShareOp> {
    if pieces == [] then [] else [Burn(pieces[0])] + Burns(pieces[1..])
  }

  function Mints(pieces: seq<u64>): seq<ShareOp> {
    if pieces == [] then [] else [Mint(pieces[0])] + Mints(pieces[1..])
  }

  lemma {:induction false} BurnsTotal(s: Shares, pieces: seq<u64>, end: Shares)
    requires RunOps(s, Burns(pieces)) == Some(end)
    ensures end.supply == s.supply - Sum(pieces)
    ensures SupplyLasts(s, Burns(pieces))
    decreases pieces
  {
    if pieces != [] {
      assert Burns(pieces)[1..] == Burns(pieces[1..]);
      BurnsTotal(ApplyOp(s, Burn(pieces[0])).value, pieces[1..], end);
    }
  }

  lemma {:induction false} MintsTotal(s: Shares, pieces: seq<u64>, end: Shares)
    requires s.supply > 0 && RunOps(s, Mints(pieces)) == Some(end)
    ensures end.value == s.value + Sum(pieces)
    ensures end.supply >= s.supply
    ensures SupplyLasts(s, Mints(pieces))
    decreases pieces
  {
    if pieces != [] {
      assert Mints(pieces)[1..] == Mints(pieces[1..]);
      MintsTotal(ApplyOp(s, Mint(pieces[0])).value, pieces[1..], end);
    }
  }

  /** Burning a holding in pieces never pays more than burning it at once. */
  lemma SplitBurnNeverGains(s: Shares, pieces: seq<u64>, end: Shares)
    requires s.supply > 0 && RunOps(s, Burns(pieces)) == Some(end)
    ensures Sum(pieces) <= s.supply
    ensures var whole := CalcCollateralForWithdraw(s.supply, s.value, Sum(pieces));
      whole.Some? && s.value - end.value <= whole.value
  {
    BurnsTotal(s, pieces, end);
    OpsKeepPrice(s, Burns(pieces), end);
    OneBurnPaysAtLeast(s, Sum(pieces), end);
  }

  lemma OneBurnPaysAtLeast(s: Shares, burnt: nat, end: Shares)
    requires s.supply > 0 && burnt == s.supply - end.supply
    requires PriceAtLeast(end.supply, end.value, s.supply, s.value)
    ensures var whole := CalcCollateralForWithdraw(s.supply, s.value, burnt);
      whole.Some? && s.value - end.value <= whole.value
  {
    PriceCapsTheNet(s.supply, s.value, end.supply, end.value);
    BurnWithinSupply(s.supply, s.value, burnt);
  }

  /** A burn within the supply never overflows. */
  lemma BurnWithinSupply(supply: u64, value: u64, lp: u64)
    requires 0 < supply && lp <= supply
    ensures CalcCollateralForWithdraw(supply, value, lp) == Some(lp * value / supply)
  {
    BurnMeaning(supply, value, lp);
    BurnKeepsPrice(supply, value, lp, lp * value / supply);
  }

  /** Depositing an amount in pieces never mints more than depositing it at once. */
  lemma SplitDepositNeverGains(s: Shares, pieces: seq<u64>, end: Shares)
    requires s.supply > 0 && s.value > 0 && RunOps(s, Mints(pieces)) == Some(end)
    ensures Sum(pieces) <= U64_MAX
    ensures var whole := CalcLpForDeposit(s.supply, s.value, Sum(pieces));
      whole.Some? ==> end.supply - s.supply <= whole.value
  {
    MintsTotal(s, pieces, end);
    var a := Sum(pieces);
    NoListBeatsOneOperation(s, Mints(pieces), end);
    GainWithinMint(s.supply, s.value, a, end.supply - s.supply);
  }

  lemma GainWithinMint(supply: u64, value: u64, amount: u64, gained: nat)
    requires supply > 0 && value > 0 && gained * value <= amount * supply
    ensures var whole := CalcLpForDeposit(supply, value, amount);
      whole.Some? ==> gained <= whole.value
  {
    MintMeaning(supply, value, amount);
    FloorAtLeast(amount * supply, value, gained);
  }
}
