/** Scalar values the core passes around without looking inside them. */
module Primitives {

  /** An octet, as Rust's `u8`. */
  type byte = b: int | 0 <= b < 0x100

  /**
   * A `rust_decimal::Decimal`: the value `mantissa / 10^scale`. The bridge never computes
   * with a balance; it only copies it from one record into another.
   */
  datatype Decimal = Decimal(mantissa: int, scale: nat)

  /** A `chrono::DateTime<Utc>`: seconds since the Unix epoch and the nanoseconds past that second. */
  datatype DateTime = DateTime(seconds: int, nanos: nat)
}
