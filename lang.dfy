/** Java-level vocabulary shared by the model: nullable values, results that
    may carry an exception, bytes and the 64-bit `long` range. */
module Lang {

  /** A Java reference that may be null: `None` is null. */
  datatype Option<+T> = None | Some(value: T)

  /** A value or the exception that was thrown instead. */
  datatype Result<+T, +E> = Success(value: T) | Failure(error: E)

  /** A `void` call that either returns normally or throws. */
  datatype Outcome<+E> = Pass | Fail(error: E)

  /** The exceptions the two-factor flow can raise. */
  datatype Exception =
    | BadCredentials(message: string)
    | UsernameNotFound(username: string)
    | PrimaryRejected(message: string)
    | IllegalArgument(message: string)
    | IllegalState(message: string)
    | NullPointer
    | ClassCast
    | BufferUnderflow
  {
    /** Whether the exception is a subclass of Spring's `AuthenticationException`. */
    predicate IsAuthenticationException() {
      BadCredentials? || UsernameNotFound? || PrimaryRejected?
    }
  }

  /** A byte, read as its unsigned value (`b & 0xFF` in Java). */
  newtype byte = x: int | 0 <= x < 256

  const TWO_TO_31: int := 0x8000_0000
  const TWO_TO_32: int := 0x1_0000_0000
  const TWO_TO_63: int := 0x8000_0000_0000_0000
  const TWO_TO_64: int := 0x1_0000_0000_0000_0000

  /** The range of a Java `long`. */
  predicate IsLong(x: int) {
    -TWO_TO_63 <= x < TWO_TO_63
  }

  /** Java's `/` on non-zero divisors: the quotient is truncated toward zero
      (Dafny's `/` is Euclidean and differs for negative dividends). */
  function TruncDiv(a: int, b: int): (q: int)
    requires b > 0
    ensures a >= 0 ==> q * b <= a < q * b + b
    ensures a < 0 ==> q * b - b < a <= q * b
  {
    if a >= 0 then a / b else -((-a) / b)
  }

  /** `base` to the power `e`, exactly. It stands for the code generator's
      `Math.pow(10, codeLength)`, which is computed in floating point. */
  function Pow(base: nat, e: nat): (r: nat)
    ensures base > 0 ==> r > 0
  {
    if e == 0 then 1 else base * Pow(base, e - 1)
  }
}
