/** The 64 packed `_reserved` bytes of a pool account and the record they encode.

    Layout: 0-7 discriminator, 8 version, 9 flags (bit 0 resolved, bit 1 HWM
    enabled), 10-11 HWM floor bps, 16-23 epoch high-water TVL, 24-31 HWM epoch,
    32-39 pre-supply vault offset; multi-byte fields are little-endian. */
module Reserved {
  import opened Machine

  type byte = u8

  const RESERVED_SIZE: nat := 64
  const CURRENT_VERSION: u8 := 1
  const POOL_DISCRIMINATOR: seq<byte> := [0x53, 0x50, 0x4F, 0x4F, 0x4C, 0x5F, 0x56, 0x31]
  const ZERO_DISCRIMINATOR: seq<byte> := [0, 0, 0, 0, 0, 0, 0, 0]

  /** Weight of a flag in byte 9. */
  type FlagBit = x: int | x == 1 || x == 2 witness 1
  const RESOLVED_BIT: FlagBit := 0x01
  const HWM_BIT: FlagBit := 0x02

  /** What the first eight bytes say about the account. */
  datatype Tag = Zeroed | StakePoolV1 | Foreign

  /** What the packed bytes stand for. */
  datatype Header = Header(
    tag: Tag,
    version: u8,
    resolved: bool,
    hwmEnabled: bool,
    floorBps: u16,
    highWater: u64,
    lastEpoch: u64,
    offset: u64)
  {
    /** Zeroed accounts predate the discriminator and stay acceptable. */
    predicate DiscriminatorOk() {
      tag != Foreign
    }

    /** Start a new epoch's mark, or raise the current one. */
    function RefreshHwm(epoch: u64, tvl: u64): Header {
      if epoch != lastEpoch then this.(highWater := tvl, lastEpoch := epoch)
      else if tvl > highWater then this.(highWater := tvl)
      else this
    }
  }

  // ------------------------------------------------------- little-endian codec

  function Pow256(n: nat): nat {
    if n == 0 then 1 else 256 * Pow256(n - 1)
  }

  function LowByte(v: nat): byte { v % 256 }

  function ToLe(v: nat, n: nat): (bs: seq<byte>)
    ensures |bs| == n
  {
    if n == 0 then [] else [LowByte(v)] + ToLe(v / 256, n - 1)
  }

  function FromLe(bs: seq<byte>): nat {
    if bs == [] then 0 else bs[0] + 256 * FromLe(bs[1..])
  }

  lemma {:induction false} LeRoundTrip(v: nat, n: nat)
    requires v < Pow256(n)
    ensures FromLe(ToLe(v, n)) == v
  {
    if n > 0 {
      LeRoundTrip(v / 256, n - 1);
      var low := LowByte(v);
      assert ToLe(v, n) == [low] + ToLe(v / 256, n - 1);
      assert ToLe(v, n)[1..] == ToLe(v / 256, n - 1);
    }
  }

  lemma {:induction false} LeBound(bs: seq<byte>)
    ensures FromLe(bs) < Pow256(|bs|)
  {
    if bs != [] {
      LeBound(bs[1..]);
    }
  }

  lemma Widths()
    ensures Pow256(2) == 0xFFFF + 1
    ensures Pow256(8) == U64_MAX + 1
  {
    assert Pow256(4) == 0x1_0000_0000;
    assert Pow256(6) == 0x1_0000_0000_0000;
  }

  function ReadU16(bs: seq<byte>): u16
    requires |bs| == 2
  {
    LeBound(bs); Widths(); FromLe(bs)
  }

  function ReadU64(bs: seq<byte>): u64
    requires |bs| == 8
  {
    LeBound(bs); Widths(); FromLe(bs)
  }

  // ------------------------------------------------------------------- getters

  /** `b & bit != 0` for a flag of weight 1 or 2. */
  predicate HasBit(b: byte, bit: FlagBit) { b / bit % 2 == 1 }

  /** `b | bit`. */
  function OrBit(b: byte, bit: FlagBit): byte { if HasBit(b, bit) then b else b + bit }

  /** `b & !bit`. */
  function ClearBit(b: byte, bit: FlagBit): byte { if HasBit(b, bit) then b - bit else b }

  function ReadTag(bs: seq<byte>): Tag {
    if bs == ZERO_DISCRIMINATOR then Zeroed
    else if bs == POOL_DISCRIMINATOR then StakePoolV1
    else Foreign
  }

  function Decode(b: seq<byte>): Header
    requires |b| == RESERVED_SIZE
  {
    Header(ReadTag(b[..8]), b[8], HasBit(b[9], RESOLVED_BIT), HasBit(b[9], HWM_BIT),
           ReadU16(b[10..12]), ReadU64(b[16..24]), ReadU64(b[24..32]), ReadU64(b[32..40]))
  }

  // ------------------------------------------------------------------- setters

  function Splice(b: seq<byte>, at: nat, field: seq<byte>): (r: seq<byte>)
    requires at + |field| <= |b|
    ensures |r| == |b|
  {
    b[..at] + field + b[at + |field|..]
  }

  function SetFlag(b: seq<byte>, bit: FlagBit, on: bool): (r: seq<byte>)
    requires |b| == RESERVED_SIZE
    ensures |r| == RESERVED_SIZE
  {
    b[9 := if on then OrBit(b[9], bit) else ClearBit(b[9], bit)]
  }

  datatype Setter =
    | SetDiscriminator
    | SetResolved
    | SetHwmEnabled(enabled: bool)
    | SetFloorBps(bps: u16)
    | SetHighWater(tvl: u64)
    | SetLastEpoch(epoch: u64)
    | SetOffset(amount: u64)

  /** A setter on the bytes. */
  function SetBytes(b: seq<byte>, w: Setter): (r: seq<byte>)
    requires |b| == RESERVED_SIZE
    ensures |r| == RESERVED_SIZE
  {
    match w
    case SetDiscriminator => Splice(Splice(b, 0, POOL_DISCRIMINATOR), 8, [CURRENT_VERSION])
    case SetResolved => SetFlag(b, RESOLVED_BIT, true)
    case SetHwmEnabled(on) => SetFlag(b, HWM_BIT, on)
    case SetFloorBps(bps) => Splice(b, 10, ToLe(bps, 2))
    case SetHighWater(tvl) => Splice(b, 16, ToLe(tvl, 8))
    case SetLastEpoch(epoch) => Splice(b, 24, ToLe(epoch, 8))
    case SetOffset(amount) => Splice(b, 32, ToLe(amount, 8))
  }

  /** The same setter on an ordinary record. */
  function SetField(h: Header, w: Setter): Header {
    match w
    case SetDiscriminator => h.(tag := StakePoolV1, version := CURRENT_VERSION)
    case SetResolved => h.(resolved := true)
    case SetHwmEnabled(on) => h.(hwmEnabled := on)
    case SetFloorBps(bps) => h.(floorBps := bps)
    case SetHighWater(tvl) => h.(highWater := tvl)
    case SetLastEpoch(epoch) => h.(lastEpoch := epoch)
    case SetOffset(amount) => h.(offset := amount)
  }

  lemma SpliceFrame(b: seq<byte>, at: nat, field: seq<byte>, lo: nat, hi: nat)
    requires at + |field| <= |b| && lo <= hi <= |b|
    requires hi <= at || at + |field| <= lo
    ensures Splice(b, at, field)[lo..hi] == b[lo..hi]
  {
  }

  lemma SpliceHit(b: seq<byte>, at: nat, field: seq<byte>)
    requires at + |field| <= |b|
    ensures Splice(b, at, field)[at..at + |field|] == field
  {
  }

  /** Writing one flag sets or clears it and leaves the other alone. */
  lemma FlagBits(b: byte, bit: FlagBit)
    ensures HasBit(OrBit(b, bit), bit) && !HasBit(ClearBit(b, bit), bit)
    ensures HasBit(OrBit(b, bit), 3 - bit) == HasBit(b, 3 - bit)
    ensures HasBit(ClearBit(b, bit), 3 - bit) == HasBit(b, 3 - bit)
  {
  }

  /** Splicing one field leaves every other field of the record alone. */
  lemma SpliceOutside(b: seq<byte>, at: nat, field: seq<byte>)
    requires |b| == RESERVED_SIZE && at + |field| <= |b|
    ensures var c := Splice(b, at, field);
      && (8 <= at ==> c[..8] == b[..8])
      && (at + |field| <= 8 || 9 <= at ==> c[8] == b[8])
      && (at + |field| <= 9 || 10 <= at ==> c[9] == b[9])
      && (at + |field| <= 10 || 12 <= at ==> c[10..12] == b[10..12])
      && (at + |field| <= 16 || 24 <= at ==> c[16..24] == b[16..24])
      && (at + |field| <= 24 || 32 <= at ==> c[24..32] == b[24..32])
      && (at + |field| <= 32 || 40 <= at ==> c[32..40] == b[32..40])
      && c[at..at + |field|] == field
  {
    var c := Splice(b, at, field);
    if 8 <= at { SpliceFrame(b, at, field, 0, 8); }
    if at + |field| <= 10 || 12 <= at { SpliceFrame(b, at, field, 10, 12); }
    if at + |field| <= 16 || 24 <= at { SpliceFrame(b, at, field, 16, 24); }
    if at + |field| <= 24 || 32 <= at { SpliceFrame(b, at, field, 24, 32); }
    if at + |field| <= 32 || 40 <= at { SpliceFrame(b, at, field, 32, 40); }
    SpliceHit(b, at, field);
  }

  /** Each setter on the bytes is the setter of its own record field. */
  lemma SetterRefines(b: seq<byte>, w: Setter)
    requires |b| == RESERVED_SIZE
    ensures Decode(SetBytes(b, w)) == SetField(Decode(b), w)
  {
    match w
    case SetDiscriminator =>
      var c := Splice(b, 0, POOL_DISCRIMINATOR);
      SpliceOutside(b, 0, POOL_DISCRIMINATOR);
      SpliceOutside(c, 8, [CURRENT_VERSION]);
      assert Splice(c, 8, [CURRENT_VERSION])[8] == 1;
      assert POOL_DISCRIMINATOR[0] != ZERO_DISCRIMINATOR[0];
      assert c[..8] == c[0..8];
    case SetResolved => FlagSetterRefines(b, w);
    case SetHwmEnabled(_) => FlagSetterRefines(b, w);
    case SetFloorBps(bps) =>
      Widths(); LeRoundTrip(bps, 2); SpliceOutside(b, 10, ToLe(bps, 2));
    case SetHighWater(tvl) =>
      Widths(); LeRoundTrip(tvl, 8); SpliceOutside(b, 16, ToLe(tvl, 8));
    case SetLastEpoch(epoch) =>
      Widths(); LeRoundTrip(epoch, 8); SpliceOutside(b, 24, ToLe(epoch, 8));
    case SetOffset(amount) =>
      Widths(); LeRoundTrip(amount, 8); SpliceOutside(b, 32, ToLe(amount, 8));
  }

  lemma FlagSetterRefines(b: seq<byte>, w: Setter)
    requires |b| == RESERVED_SIZE && (w.SetResolved? || w.SetHwmEnabled?)
    ensures Decode(SetBytes(b, w)) == SetField(Decode(b), w)
  {
    var c := SetBytes(b, w);
    FlagBits(b[9], RESOLVED_BIT);
    FlagBits(b[9], HWM_BIT);
    assert c[..8] == b[..8] && c[10..12] == b[10..12];
    assert c[16..24] == b[16..24] && c[24..32] == b[24..32] && c[32..40] == b[32..40];
  }

  function SetAllBytes(b: seq<byte>, ws: seq<Setter>): (r: seq<byte>)
    requires |b| == RESERVED_SIZE
    ensures |r| == RESERVED_SIZE
    decreases ws
  {
    if ws == [] then b else SetAllBytes(SetBytes(b, ws[0]), ws[1..])
  }

  function SetAllFields(h: Header, ws: seq<Setter>): Header
    decreases ws
  {
    if ws == [] then h else SetAllFields(SetField(h, ws[0]), ws[1..])
  }

  /** Over any sequence of setters the bytes behave as an independent record:
      every getter sees the last value set for its own field. */
  lemma {:induction false} BytesRefineRecord(b: seq<byte>, ws: seq<Setter>)
    requires |b| == RESERVED_SIZE
    ensures Decode(SetAllBytes(b, ws)) == SetAllFields(Decode(b), ws)
    decreases ws
  {
    if ws != [] {
      SetterRefines(b, ws[0]);
      BytesRefineRecord(SetBytes(b, ws[0]), ws[1..]);
    }
  }

  /** No setter clears the resolved flag. */
  lemma {:induction false} ResolvedSurvivesSetters(b: seq<byte>, ws: seq<Setter>)
    requires |b| == RESERVED_SIZE && (Decode(b).resolved || SetResolved in ws)
    ensures Decode(SetAllBytes(b, ws)).resolved
    decreases ws
  {
    if ws != [] {
      SetterRefines(b, ws[0]);
      ResolvedSurvivesSetters(SetBytes(b, ws[0]), ws[1..]);
    }
  }
}
