/** The untyped JavaScript values that reach the feedback validators from a
    parsed HTTP body, and the number predicates they apply to them. */
module JsValues {

  datatype Option<+T> = None | Some(value: T)

  /** A JavaScript number: a finite value, or NaN / +Infinity / -Infinity,
      which no check of the validators tells apart. */
  datatype Number = Finite(value: real) | NonFinite

  /** A value of static type `unknown`, split by what `typeof` reports. */
  datatype JsValue =
    | Num(num: Number)
    | Str(str: string)
    | Null
    | Undefined
    | Other   // booleans, objects, arrays, ...

  /** `Number.isInteger(x)`: a finite number with no fractional part, that is,
      one that some integer stands for exactly. */
  predicate IsInteger(x: Number): (b: bool)
    ensures b <==> x.Finite? && exists k: int :: AsReal(k) == x.value
  {
    x.Finite? &&
      var k := x.value.Floor;
      assert AsReal(k) == k as real;
      k as real == x.value
  }

  /** An integer as a real number. */
  function AsReal(k: int): real {
    k as real
  }

  /** The integer an integral number stands for. */
  function IntegerValue(x: Number): (k: int)
    requires IsInteger(x)
    ensures k as real == x.value
  {
    x.value.Floor
  }
}
