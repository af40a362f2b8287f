/** The pool account as the program updates it in place: plain counters beside the
    packed byte array. */
module StakePoolAccount {
  import opened Machine
  import opened Reserved
  import opened PoolState
  import opened VaultMachine

  /** Zeroed bytes decode to the zeroed header. */
  lemma ZeroBytes(b: seq<byte>)
    requires |b| == RESERVED_SIZE && forall i | 0 <= i < |b| :: b[i] == 0
    ensures Decode(b) == ZERO_HEADER
  {
    ZeroLe(b[10..12]);
    ZeroLe(b[16..24]);
    ZeroLe(b[24..32]);
    ZeroLe(b[32..40]);
    assert b[..8] == ZERO_DISCRIMINATOR;
  }

  lemma {:induction false} ZeroLe(bs: seq<byte>)
    requires forall i | 0 <= i < |bs| :: bs[i] == 0
    ensures FromLe(bs) == 0
  {
    if bs != [] {
      ZeroLe(bs[1..]);
    }
  }

  class StakePool {
    var isInitialized: bool
    var poolMode: u8
    var totalDeposited: u64
    var totalLpSupply: u64
    var cooldownSlots: u64
    var depositCap: u64
    var totalFlushed: u64
    var totalReturned: u64
    var totalWithdrawn: u64
    var totalFeesEarned: u64
    const reserved: array<byte>

    ghost predicate Valid() {
      reserved.Length == RESERVED_SIZE
    }

    /** The header the bytes stand for; each getter of the source is a field of it. */
    function Header(): Reserved.Header
      requires Valid()
      reads reserved
    {
      Decode(reserved[..])
    }

    function View(): Pool
      requires Valid()
      reads this, reserved
    {
      Pool(isInitialized, poolMode, totalDeposited, totalLpSupply, cooldownSlots, depositCap,
           totalFlushed, totalReturned, totalWithdrawn, totalFeesEarned, Header())
    }

    /** A newly created account is all zeroes. */
    constructor ()
      ensures Valid() && fresh(reserved)
      ensures View() == ZERO_POOL
    {
      isInitialized, poolMode := false, INSURANCE_MODE;
      totalDeposited, totalLpSupply, cooldownSlots, depositCap := 0, 0, 0, 0;
      totalFlushed, totalReturned, totalWithdrawn, totalFeesEarned := 0, 0, 0, 0;
      reserved := new byte[RESERVED_SIZE](_ => 0);
      new;
      ZeroBytes(reserved[..]);
    }

    /** `copy_from_slice` into the reserved bytes. */
    method Write(at: nat, field: seq<byte>)
      requires Valid() && at + |field| <= RESERVED_SIZE
      modifies reserved
      ensures reserved[..] == Splice(old(reserved[..]), at, field)
    {
      forall i | 0 <= i < |field| {
        reserved[at + i] := field[i];
      }
    }

    method SetDiscriminator()
      requires Valid()
      modifies reserved
      ensures Header() == SetField(old(Header()), Setter.SetDiscriminator)
    {
      SetterRefines(reserved[..], Setter.SetDiscriminator);
      Write(0, POOL_DISCRIMINATOR);
      Write(8, [CURRENT_VERSION]);
    }

    method SetResolved()
      requires Valid()
      modifies reserved
      ensures Header() == SetField(old(Header()), Setter.SetResolved)
    {
      SetterRefines(reserved[..], Setter.SetResolved);
      ghost var before := reserved[..];
      reserved[9] := OrBit(reserved[9], RESOLVED_BIT);
      assert reserved[..] == SetBytes(before, Setter.SetResolved);
    }

    method SetHwmEnabled(enabled: bool)
      requires Valid()
      modifies reserved
      ensures Header() == SetField(old(Header()), Setter.SetHwmEnabled(enabled))
    {
      SetterRefines(reserved[..], Setter.SetHwmEnabled(enabled));
      ghost var before := reserved[..];
      if enabled {
        reserved[9] := OrBit(reserved[9], HWM_BIT);
      } else {
        reserved[9] := ClearBit(reserved[9], HWM_BIT);
      }
      assert reserved[..] == SetBytes(before, Setter.SetHwmEnabled(enabled));
    }

    method SetHwmFloorBps(bps: u16)
      requires Valid()
      modifies reserved
      ensures Header() == SetField(old(Header()), SetFloorBps(bps))
    {
      SetterRefines(reserved[..], SetFloorBps(bps));
      Write(10, ToLe(bps, 2));
    }

    method SetEpochHighWaterTvl(tvl: u64)
      requires Valid()
      modifies reserved
      ensures Header() == SetField(old(Header()), SetHighWater(tvl))
    {
      SetterRefines(reserved[..], SetHighWater(tvl));
      Write(16, ToLe(tvl, 8));
    }

    method SetHwmLastEpoch(epoch: u64)
      requires Valid()
      modifies reserved
      ensures Header() == SetField(old(Header()), SetLastEpoch(epoch))
    {
      SetterRefines(reserved[..], SetLastEpoch(epoch));
      Write(24, ToLe(epoch, 8));
    }

    method SetPreSupplyVaultOffset(amount: u64)
      requires Valid()
      modifies reserved
      ensures Header() == SetField(old(Header()), SetOffset(amount))
    {
      SetterRefines(reserved[..], SetOffset(amount));
      Write(32, ToLe(amount, 8));
    }

    /** Track the highest value seen in the current epoch. */
    method RefreshHwm(epoch: u64, tvl: u64) returns (mark: u64)
      requires Valid()
      modifies reserved
      ensures Header() == old(Header()).RefreshHwm(epoch, tvl)
      ensures mark == Header().highWater
    {
      if epoch != Header().lastEpoch {
        SetEpochHighWaterTvl(tvl);
        SetHwmLastEpoch(epoch);
      } else if tvl > Header().highWater {
        SetEpochHighWaterTvl(tvl);
      }
      mark := Header().highWater;
    }
  }
}
