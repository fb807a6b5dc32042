/**
 * Shared vocabulary of the saga model: nullable references, results that
 * carry a .NET exception, the exceptions that the saga code throws or
 * propagates, the DateTime / TimeSpan tick arithmetic and the string
 * predicates of System.String.
 */
module Basics {

  /** A .NET reference that may be null. */
  datatype Option<+T> = None | Some(value: T)

  /** The outcome of a call that either returns a value or throws. */
  datatype Result<+T, +E> = Ok(value: T) | Err(error: E)

  /** A .NET `byte`: an unsigned eight-bit value. */
  newtype byte = x: int | 0 <= x < 0x100

  /** A call that completes without a value of interest. */
  datatype Unit = Unit

  /**
   * The exceptions that appear in the saga code. Each carries what its
   * `Message` property is built from.
   */
  datatype Exception =
    | ArgumentException(text: string, paramName: Option<string>)
    | ArgumentNullException(nullParam: string)
    | ArgumentOutOfRangeException(rangeParam: string, rangeText: string)
    | KeyNotFoundException(key: string)
    | NullReferenceException(nullText: Option<string>)
    | FunctionFailedException(failure: string)
    | BrokenCircuitException
    | OtherException(typeName: string, other: string)
  {
    /** The `Message` property, as .NET (Core 3.0 and later) renders it. */
    function Message(): string
    {
      match this
      case ArgumentException(t, p) =>
        if p.Some? && p.value != "" then t + " (Parameter '" + p.value + "')" else t
      case ArgumentNullException(p) => "Value cannot be null. (Parameter '" + p + "')"
      case ArgumentOutOfRangeException(p, t) => t + " (Parameter '" + p + "')"
      case KeyNotFoundException(k) => "The given key '" + k + "' was not present in the dictionary."
      case NullReferenceException(t) =>
        if t.Some? then t.value else "Object reference not set to an instance of an object."
      case FunctionFailedException(m) => m
      case BrokenCircuitException => "The circuit is now open and is not allowing calls."
      case OtherException(_, m) => m
    }

    /**
     * Whether a `catch (ArgumentException)` handler catches this exception:
     * ArgumentNullException and ArgumentOutOfRangeException derive from it.
     */
    predicate IsArgumentException()
    {
      ArgumentException? || ArgumentNullException? || ArgumentOutOfRangeException?
    }
  }

  /** `new ArgumentException()`: no parameter and the default message. */
  const DefaultArgumentException: Exception :=
    ArgumentException("Value does not fall within the expected range.", None)

  /** The null reference the runtime throws on when a member of null is used. */
  const NullDereference: Exception := NullReferenceException(None)

  /** The largest tick count a System.DateTime can hold (9999-12-31 23:59:59.9999999). */
  const MaxTicks: int := 3155378975999999999

  /** A System.DateTime, as its tick count; `MinValue` is tick 0. */
  type DateTime = t: int | 0 <= t <= MaxTicks

  const MinValue: DateTime := 0

  /** A System.TimeSpan, as its signed 64-bit tick count. */
  type TimeSpan = t: int | -0x8000_0000_0000_0000 <= t <= 0x7FFF_FFFF_FFFF_FFFF

  const TicksPerSecond: int := 10_000_000

  /** A C# `int`, as `int.Parse` of a configuration setting yields it. */
  type Int32 = x: int | -0x8000_0000 <= x < 0x8000_0000

  /** The text .NET puts in the exception `DateTime.Add` throws on overflow. */
  const UnrepresentableDateTime: string :=
    "The added or subtracted value results in an un-representable DateTime."

  /**
   * `DateTime.Add(TimeSpan)`: the sum of the ticks, or an
   * ArgumentOutOfRangeException on parameter "value" when the sum falls
   * outside the DateTime range.
   */
  function AddTimeSpan(d: DateTime, span: TimeSpan): (r: Result<DateTime, Exception>)
    ensures r.Ok? <==> 0 <= d + span <= MaxTicks
    ensures r.Ok? ==> r.value == d + span
    ensures r.Err? ==> r.error == ArgumentOutOfRangeException("value", UnrepresentableDateTime)
  {
    if 0 <= d + span <= MaxTicks then Ok(d + span)
    else Err(ArgumentOutOfRangeException("value", UnrepresentableDateTime))
  }

  /** `TimeSpan.FromSeconds` for whole seconds that fit in a TimeSpan. */
  function FromSeconds(seconds: int): TimeSpan
    requires -922337203685 <= seconds <= 922337203685
  {
    seconds * TicksPerSecond
  }

  /** `char.IsWhiteSpace`: the Unicode space separators and the control spaces. */
  predicate IsWhiteSpace(c: char)
  {
    ('\U{0009}' <= c <= '\U{000D}') || c == ' ' || c == '\U{0085}' || c == '\U{00A0}'
    || c == '\U{1680}' || ('\U{2000}' <= c <= '\U{200A}') || c == '\U{2028}' || c == '\U{2029}'
    || c == '\U{202F}' || c == '\U{205F}' || c == '\U{3000}'
  }

  /** `string.IsNullOrEmpty`. */
  predicate IsNullOrEmpty(s: Option<string>)
  {
    s.None? || s.value == ""
  }

  /** `string.IsNullOrWhiteSpace`. */
  predicate IsNullOrWhiteSpace(s: Option<string>)
  {
    s.None? || forall i :: 0 <= i < |s.value| ==> IsWhiteSpace(s.value[i])
  }

  /** Every string that is null or empty is null or white space, not conversely. */
  lemma NullOrEmptyIsNullOrWhiteSpace(s: Option<string>)
    ensures IsNullOrEmpty(s) ==> IsNullOrWhiteSpace(s)
    ensures IsNullOrWhiteSpace(Some(" ")) && !IsNullOrEmpty(Some(" "))
  {
  }

  /** How an interpolated string (`$"{s}"`) renders a string that may be null. */
  function Render(s: Option<string>): string
  {
    if s.Some? then s.value else ""
  }

  /** The services that exchange messages in the saga (the `Sources` enum). */
  datatype Sources = Orchestrator | Validator | Transfer | Receipt
  {
    /** `Sources.ToString()`. */
    function Name(): string
    {
      match this
      case Orchestrator => "Orchestrator"
      case Validator => "Validator"
      case Transfer => "Transfer"
      case Receipt => "Receipt"
    }
  }

  /** Distinct sources have distinct names, so the names identify the source. */
  lemma SourceNamesDistinct(a: Sources, b: Sources)
    ensures a.Name() == b.Name() <==> a == b
  {
  }

  /** A System.Threading.CancellationTokenSource: it only records `Cancel()`. */
  class CancellationTokenSource {
    var isCancellationRequested: bool

    constructor ()
      ensures !isCancellationRequested
    {
      isCancellationRequested := false;
    }

    method Cancel()
      modifies this
      ensures isCancellationRequested
    {
      isCancellationRequested := true;
    }
  }
}
