/**
 * The enum TrackerSparqlValueType: the eight kinds of RDF term a result
 * column can hold, each declared with an integer code, and the decoding
 * of a native code back into a constant.
 */
module ValueTypes {
  import opened Wrappers

  /** The constants, written in the order of their declaration. */
  datatype ValueType =
    | Unbound
    | Uri
    | String
    | Integer
    | Double
    | DateTime
    | BlankNode
    | Boolean

  /** The result of `values()`: every constant, in declaration order. */
  const Values: seq<ValueType> :=
    [Unbound, Uri, String, Integer, Double, DateTime, BlankNode, Boolean]

  /** The exception `getValue` throws when no constant has the requested ordinal. */
  datatype IllegalArgument = IllegalArgument(message: string)

  const NoConstant := IllegalArgument("No Enum Constants with this intValue")

  /** The position of `v` in `s`: the first index holding it. */
  function IndexOf(s: seq<ValueType>, v: ValueType): (r: nat)
    requires v in s
    ensures r < |s| && s[r] == v
    ensures v !in s[..r]
  {
    if s[0] == v then 0
    else
      assert s == [s[0]] + s[1..];
      var k := IndexOf(s[1..], v);
      assert s[..k + 1] == [s[0]] + s[1..][..k];
      k + 1
  }

  /** Java's `ordinal()`: the position of the constant in the declaration. */
  function Ordinal(v: ValueType): (r: nat)
    ensures r < |Values| && Values[r] == v
  {
    EveryConstantListed(v);
    IndexOf(Values, v)
  }

  /** `values()` lists every constant. */
  lemma EveryConstantListed(v: ValueType)
    ensures v in Values
  {
  }

  /** `getIntValue()`: the code each constant is declared with. */
  function IntValue(v: ValueType): (r: int)
    ensures 0 <= r < |Values| && Values[r] == v
  {
    match v
    case Unbound => 0
    case Uri => 1
    case String => 2
    case Integer => 3
    case Double => 4
    case DateTime => 5
    case BlankNode => 6
    case Boolean => 7
  }

  /** The ordinal of the constant at position `k` of `values()` is `k`. */
  lemma OrdinalAt(k: nat)
    requires k < |Values|
    ensures Ordinal(Values[k]) == k
  {
  }

  /**
   * The loop of `getValue` from position `k` of `values()` on: the first
   * constant whose ordinal is `i`, or the exception once the loop ends.
   */
  function SearchFrom(k: nat, i: int): (r: Result<ValueType, IllegalArgument>)
    requires k <= |Values|
    ensures r.Success? <==> k <= i < |Values|
    ensures r.Success? ==> r.value == Values[i]
    ensures r.Failure? ==> r.error == NoConstant
    decreases |Values| - k
  {
    if k == |Values| then Failure(NoConstant)
    else
      OrdinalAt(k);
      if Ordinal(Values[k]) == i then Success(Values[k])
      else SearchFrom(k + 1, i)
  }

  /** `getValue(i)`: the constant whose ordinal is `i`, else IllegalArgumentException. */
  function GetValue(i: int): (r: Result<ValueType, IllegalArgument>)
    ensures r.Success? <==> 0 <= i < |Values|
    ensures r.Success? ==> Ordinal(r.value) == i && IntValue(r.value) == i
    ensures r.Failure? ==> r.error == NoConstant
  {
    var r := SearchFrom(0, i);
    if r.Success? then OrdinalAt(i); r else r
  }

  /** Every constant's code is its ordinal. */
  lemma IntValueIsOrdinal(v: ValueType)
    ensures IntValue(v) == Ordinal(v)
  {
  }

  /** The codes are exactly 0..7, in the order Unbound .. Boolean. */
  lemma CodesInDeclarationOrder()
    ensures |Values| == 8
    ensures forall k | 0 <= k < |Values| :: IntValue(Values[k]) == k
    ensures IntValue(Unbound) == 0 && IntValue(Uri) == 1 && IntValue(String) == 2
         && IntValue(Integer) == 3 && IntValue(Double) == 4 && IntValue(DateTime) == 5
         && IntValue(BlankNode) == 6 && IntValue(Boolean) == 7
  {
  }

  /** Decoding a constant's code gives the constant back. */
  lemma RoundTripFromConstant(v: ValueType)
    ensures GetValue(IntValue(v)) == Success(v)
  {
  }

  /** Every code in 0..7 decodes to the one constant declared with it. */
  lemma RoundTripFromCode(i: int)
    requires 0 <= i < |Values|
    ensures GetValue(i).Success? && IntValue(GetValue(i).value) == i
    ensures forall v :: IntValue(v) == i ==> GetValue(i) == Success(v)
  {
  }

  /** A code outside 0..7 raises the exception and yields no constant. */
  lemma OutOfRangeFails(i: int)
    requires i < 0 || i >= |Values|
    ensures GetValue(i) == Failure(NoConstant)
    ensures forall v :: GetValue(i) != Success(v)
  {
  }
}
