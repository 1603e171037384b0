/** The dynamic values the app passes around: Kotlin `Any` in the decoders'
    `Map<String, Any>` results, `org.json` objects in published payloads, and
    `kotlinx.serialization` `JsonElement` trees. Floating-point quantities are
    kept symbolically (see Tenths, IntAsDouble, IntAsFloat, FloatBits and
    DoubleBits). */
module Values {

  datatype Value =
    | Null
    | Bool(b: bool)
    | Num(n: int)
    | Str(s: string)
    | Arr(items: seq<Value>)
    | Obj(fields: map<string, Value>)
      /** The `Double` computed as `raw / 10.0`. */
    | Tenths(raw: int)
      /** The `Double` equal to the integer `i` (Kotlin `Int.toDouble()`, exact for an `Int`). */
    | IntAsDouble(i: int)
      /** The `Float` nearest to the integer `i` (Kotlin `Int.toFloat()`). */
    | IntAsFloat(i: int)
      /** An IEEE-754 single read from a buffer, kept as its bit pattern. */
    | FloatBits(bits: nat)
      /** An IEEE-754 double read from a buffer, kept as its bit pattern. */
    | DoubleBits(bits: nat)

  /** A decoded record, Kotlin `Map<String, Any>`. */
  type Record = map<string, Value>

  /** A Kotlin `List<Int>` as a list of values. */
  function Nums(xs: seq<int>): (r: seq<Value>)
    ensures |r| == |xs|
    ensures forall i :: 0 <= i < |xs| ==> r[i] == Num(xs[i])
  {
    if xs == [] then [] else [Num(xs[0])] + Nums(xs[1..])
  }
}
