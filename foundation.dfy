/**
  Host-language value types the analytics layer builds on: optionals, a
  success-or-error result, Swift's 64-bit `Int`, and `Double` and `Date`,
  which the model carries around without doing arithmetic on them.
 */
module Foundation {

  /** Swift's `Optional`. */
  datatype Option<+T> = None | Some(value: T)

  /** The outcome of a throwing call: its value, or the error it throws. */
  datatype Result<+R, +E> = Ok(value: R) | Err(error: E)

  /** Swift's `Int` on the 64-bit platforms the package targets. */
  newtype Int64 = x: int | -0x8000_0000_0000_0000 <= x < 0x8000_0000_0000_0000

  /**
    A `Double`, carried as its IEEE-754 bit pattern. Nothing in the modelled
    code computes with doubles; they are only stored and forwarded.
   */
  datatype Double = Double(bits: bv64)

  /** Foundation's `Date`, which encodes itself as one `Double`. */
  datatype Date = Date(timeIntervalSinceReferenceDate: Double)
}
