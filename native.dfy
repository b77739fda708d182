/**
 * Go's fixed-width integers and the dynamically typed values that make up goavro's
 * "native" form (`map[string]interface{}` with integers, strings, slices and nested maps).
 */
module GoNative {

  const INT64_MIN: int := -0x8000_0000_0000_0000
  const INT64_MAX: int := 0x7FFF_FFFF_FFFF_FFFF

  /** Go's `int64`; Go's `int` is taken to be 64 bits wide as well. */
  type Int64 = x: int | -0x8000_0000_0000_0000 <= x <= 0x7FFF_FFFF_FFFF_FFFF

  /** Go's `int8`. */
  type Int8 = x: int | -0x80 <= x <= 0x7F

  predicate InInt64(x: int) {
    INT64_MIN <= x <= INT64_MAX
  }

  /** Two's-complement wrap-around of Go's int64 addition, subtraction and negation. */
  function Wrap64(x: int): (r: Int64)
    ensures InInt64(x) ==> r == x
    ensures (r - x) % 0x1_0000_0000_0000_0000 == 0
  {
    (x + 0x8000_0000_0000_0000) % 0x1_0000_0000_0000_0000 - 0x8000_0000_0000_0000
  }

  /** One value of goavro's native form. */
  datatype Value =
    | Num(n: int)
    | Str(s: string)
    | List(items: seq<Value>)
    | Map(fields: map<string, Value>)
}
