/** Values shared by every part of the model: nullable references, the
    outcome of a parser that is not part of this model, .NET exceptions and
    the fixed-width integer types of C#. */
module Common {

  /** A C# reference that may be null. */
  datatype Option<+T> = None | Some(value: T)

  /** What a JSON parser whose code is not part of this model can do:
      throw, return null, or return a value. */
  datatype Parsed<+T> = ParseThrows | ParseNull | ParseOk(value: T)

  /** The .NET exceptions the modelled code can raise or let through. */
  datatype Exception =
    | NullReferenceException
    | IndexOutOfRangeException
    | InvalidCastException
    | FormatException
    | OverflowException
    | ParserException      // raised by a JSON parser or unwrapper
    | HandlerException     // raised by an application-supplied delegate

  /** An `Action<GdprConsent>` delegate supplied by the application, by
      identity. */
  datatype CallbackRef = CallbackRef(id: nat)

  /** How a `void` C# method ends. */
  datatype Exit = Normal | Thrown(error: Exception)

  /** How a value-returning C# method ends. */
  datatype Completion<+T> = Returned(value: T) | Raised(error: Exception)

  const MinInt32: int := -0x8000_0000
  const MaxInt32: int := 0x7fff_ffff
  const MinInt64: int := -0x8000_0000_0000_0000
  const MaxInt64: int := 0x7fff_ffff_ffff_ffff

  /** C# `int`. */
  newtype int32 = x: int | MinInt32 <= x <= MaxInt32

  /** C# `long`. */
  newtype int64 = x: int | MinInt64 <= x <= MaxInt64

  /** The result of C# `long` arithmetic in an unchecked context: the
      mathematical value reduced modulo 2^64 into the signed range. */
  function WrapInt64(x: int): (r: int64)
    ensures MinInt64 <= x <= MaxInt64 ==> r as int == x
    ensures (r as int - x) % 0x1_0000_0000_0000_0000 == 0
  {
    var m := x % 0x1_0000_0000_0000_0000;
    if m <= MaxInt64 then m as int64 else (m - 0x1_0000_0000_0000_0000) as int64
  }
}
