/**
 * The values a YAML configuration or an exported descriptor holds, with
 * Python's truthiness. Floats are kept as decimal literals
 * (mantissa * 10^exponent) and never computed with.
 */
module Values {
  import Dicts

  datatype Value =
    | Null
    | Bool(b: bool)
    | Int(i: int)
    | Float(mantissa: int, exponent: int)
    | Str(s: string)
    | List(items: seq<Value>)
    | Mapping(entries: Dicts.Dict<Value>)

  /** Python's `bool(v)`: false, zero, empty and None are false. */
  predicate Truthy(v: Value) {
    match v
    case Null => false
    case Bool(b) => b
    case Int(i) => i != 0
    case Float(m, _) => m != 0
    case Str(s) => s != ""
    case List(items) => items != []
    case Mapping(entries) => entries != []
  }

  /** A Python list of ints, such as a slice of an image shape. */
  function IntList(xs: seq<int>): (v: Value)
    ensures v.List? && |v.items| == |xs|
    ensures forall i :: 0 <= i < |xs| ==> v.items[i] == Int(xs[i])
  {
    List(seq(|xs|, i requires 0 <= i < |xs| => Int(xs[i])))
  }
}
