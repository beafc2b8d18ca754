/** Identifiers, fixed-width arithmetic and the small sum types shared by every module. */
module Types {
  type ContentHash = nat
  type AccountId = nat
  type BlockNumber = nat

  datatype Option<+T> = None | Some(value: T)

  datatype Result<+T, +E> = Ok(value: T) | Err(error: E)

  const U32_MAX: nat := 0xFFFF_FFFF
  const U64_MAX: nat := 0xFFFF_FFFF_FFFF_FFFF

  /** Rust's `saturating_add` on an unsigned type whose largest value is `max`. */
  function SatAdd(max: nat, a: nat, b: nat): nat {
    if a + b > max then max else a + b
  }

  /** Rust's `saturating_sub` on an unsigned type. */
  function SatSub(a: nat, b: nat): nat {
    if a < b then 0 else a - b
  }

  /** A `u64` accumulator holding a sum that may have saturated. */
  function Clip(n: nat): nat {
    if n > U64_MAX then U64_MAX else n
  }

  /** How often something counts: once or not at all. */
  function One(b: bool): nat {
    if b then 1 else 0
  }

  // ---------------------------------------------------------------- division

  lemma AtLeastOnce(x: int, d: nat)
    ensures x > 0 ==> d <= x * d
  {
  }

  lemma QuotientIs(n: nat, d: nat, q: nat, r: nat)
    requires 0 < d && r < d && n == q * d + r
    ensures n / d == q
  {
    var p, m := n / d, n % d;
    assert n == p * d + m && (p - q) * d == r - m;
    AtLeastOnce(p - q, d);
    AtLeastOnce(q - p, d);
  }
}
