/** The few JavaScript value notions the App component relies on. */
module Js {

  /** `null` in JavaScript, or a present value. */
  datatype Option<+T> = None | Some(value: T) {

    /** `x ?? fallback` */
    function GetOr(fallback: T): T {
      match this
      case Some(v) => v
      case None => fallback
    }
  }

  /**
   * A JavaScript value as far as the component inspects it: form fields and
   * row columns are `undefined`, `null`, strings or numbers. A number is a
   * real; NaN is not represented.
   */
  datatype Value = Undefined | Null | Str(s: string) | Num(n: real)

  /** JavaScript truthiness: `undefined`, `null`, `""` and `0` are falsy. */
  predicate Truthy(v: Value)
    ensures Truthy(v) <==> v !in {Undefined, Null, Str(""), Num(0.0)}
  {
    match v
    case Undefined => false
    case Null => false
    case Str(s) => s != ""
    case Num(n) => n != 0.0
  }

  /** The `v || fallback` operator: `v` itself when truthy, else `fallback`. */
  function Or(v: Value, fallback: Value): (r: Value)
    ensures Truthy(r) <==> Truthy(v) || Truthy(fallback)
    ensures Truthy(v) ==> r == v
    ensures !Truthy(v) ==> r == fallback
  {
    if Truthy(v) then v else fallback
  }
}
