/**
 * The JNA type converter that turns the native integer into a JNAEnum
 * constant (`fromNative`) and a constant into its integer (`toNative`).
 */
module EnumConverter {
  import opened Wrappers
  import opened ValueTypes

  /**
   * The class JNA asks the converter to produce. `enumConstants` is what
   * `getEnumConstants()` returns: None (Java null) for a class that is not
   * an enum. The binding's only JNAEnum is TrackerSparqlValueType, which is
   * `ValueTypeClass` below. The other JnaEnum values (None, an empty list, a
   * list other than `Values`) stand for hypothetical further implementers of
   * JNAEnum. For a non-empty list, `fromNative` calls `getValue` on its
   * first constant, which the model takes to be TrackerSparqlValueType's.
   */
  datatype TargetClass =
    | NotJnaEnum
    | JnaEnum(enumConstants: Option<seq<ValueType>>)

  /** The target class TrackerSparqlValueType itself. */
  const ValueTypeClass := JnaEnum(Some(Values))

  /** What `fromNative` returns or throws. */
  datatype FromNativeResult =
    | Null
    | Converted(value: ValueType)
    | IllegalArgumentThrown(error: IllegalArgument)
    | NullPointerThrown

  /** `fromNative(input, context)` with `context.getTargetType()` given as `target`. */
  function FromNative(input: int, target: TargetClass): (r: FromNativeResult)
    ensures r.Null? <==> target.NotJnaEnum? || target.enumConstants == Some([])
    ensures r.NullPointerThrown? <==> target == JnaEnum(None)
    ensures (r.Converted? || r.IllegalArgumentThrown?) <==>
              target.JnaEnum? && target.enumConstants.Some? && target.enumConstants.value != []
    ensures r.Converted? ==> GetValue(input) == Success(r.value)
    ensures r.IllegalArgumentThrown? ==> GetValue(input) == Failure(r.error)
  {
    match target
    case NotJnaEnum => Null
    case JnaEnum(None) => NullPointerThrown
    case JnaEnum(Some(enums)) =>
      if |enums| == 0 then Null
      else
        match GetValue(input)
        case Success(v) => Converted(v)
        case Failure(e) => IllegalArgumentThrown(e)
  }

  /** `toNative(input, context)`: the constant's declared code. */
  function ToNative(v: ValueType): (r: int)
    ensures 0 <= r < |Values|
    ensures FromNative(r, ValueTypeClass) == Converted(v)
  {
    RoundTripFromConstant(v);
    IntValue(v)
  }

  /**
   * For the value-type class, `fromNative` succeeds exactly on codes 0..7,
   * and then `toNative` gives the code back.
   */
  lemma FromNativeValueType(i: int)
    ensures FromNative(i, ValueTypeClass).Converted? <==> 0 <= i < |Values|
    ensures FromNative(i, ValueTypeClass).Converted? ==>
              ToNative(FromNative(i, ValueTypeClass).value) == i
    ensures !(0 <= i < |Values|) ==> FromNative(i, ValueTypeClass) == IllegalArgumentThrown(NoConstant)
  {
  }
}
