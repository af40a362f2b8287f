/** Fixed-width integers of the on-chain program, with the checked, saturating
    and truncating operations it uses on them. */
module Machine {
  import opened Rounding

  const U64_MAX: int := 0xFFFF_FFFF_FFFF_FFFF
  const U128_MAX: int := 0xFFFF_FFFF_FFFF_FFFF_FFFF_FFFF_FFFF_FFFF
  const BPS_DENOMINATOR: int := 10_000

  type u8 = x: int | 0 <= x <= 0xFF
  type u16 = x: int | 0 <= x <= 0xFFFF
  type u64 = x: int | 0 <= x <= U64_MAX
  type u128 = x: int | 0 <= x <= U128_MAX

  datatype Option<+T> = None | Some(value: T) {
    predicate IsFailure() { None? }

    function PropagateFailure<U>(): Option<U>
      requires None?
    {
      None
    }

    function Extract(): T
      requires Some?
    {
      value
    }

    function UnwrapOr(default: T): T {
      if Some? then value else default
    }

    /** Rust's `ok_or`. */
    function OkOr<E>(error: E): Result<T, E> {
      if Some? then Ok(value) else Err(error)
    }
  }

  datatype Result<+T, +E> = Ok(value: T) | Err(error: E) {
    predicate IsFailure() { Err? }

    function PropagateFailure<U>(): Result<U, E>
      requires Err?
    {
      Err(error)
    }

    function Extract(): T
      requires Ok?
    {
      value
    }
  }

  function Min(a: int, b: int): int { if a <= b then a else b }
  function Max(a: int, b: int): int { if a <= b then b else a }

  function CheckedAdd64(a: u64, b: u64): Option<u64> {
    if a + b <= U64_MAX then Some(a + b) else None
  }

  function CheckedSub64(a: u64, b: u64): Option<u64> {
    if b <= a then Some(a - b) else None
  }

  function SaturatingAdd64(a: u64, b: u64): u64 {
    if a + b <= U64_MAX then a + b else U64_MAX
  }

  function SaturatingSub64(a: u64, b: u64): u64 {
    if b <= a then a - b else 0
  }

  function CheckedMul128(a: u128, b: u128): Option<u128> {
    if 0 <= a * b <= U128_MAX then Some(a * b) else None
  }

  function CheckedDiv128(a: u128, b: u128): Option<u128> {
    if b == 0 then None else Some(Quotient(a, b))
  }

  /** Division of u128 values never leaves the type. */
  function Quotient(a: u128, b: u128): u128
    requires b > 0
  {
    FloorShrinks(a, b);
    a / b
  }

  /** `as u64` on a u128: keeps the low 64 bits. */
  function Truncate64(x: u128): u64 { x % 0x1_0000_0000_0000_0000 }

  /** The guard `if x > u64::MAX { None } else { Some(x as u64) }`. */
  function Narrow64(x: u128): Option<u64> {
    if x > U64_MAX then None else Some(Truncate64(x))
  }
}
