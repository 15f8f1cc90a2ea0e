/** Values shared by the whole model: optional values, floats as reals with a non-finite case,
    and the transcendental functions the source calls, left abstract. */
module Numeric {

  datatype Option<+T> = None | Some(value: T)

  /** One entry of a float column. `NaN` stands for every non-finite float. */
  datatype Num = NaN | Fin(v: real)

  /** The numerical library: only the fact that these are functions is ever used. */
  datatype Maths = Maths(ln: real -> real, sqrt: real -> real, exp: real -> real, pow: (real, real) -> real)

  function Abs(x: real): real {
    if x < 0.0 then -x else x
  }

  function Max(x: real, y: real): real {
    if x < y then y else x
  }

  function Min(x: real, y: real): real {
    if y < x then y else x
  }

  function Sub(a: Num, b: Num): Num {
    if a.Fin? && b.Fin? then Fin(a.v - b.v) else NaN
  }

  function Mul(a: Num, b: Num): Num {
    if a.Fin? && b.Fin? then Fin(a.v * b.v) else NaN
  }

  /** Division by zero gives a non-finite float. */
  function Div(a: Num, b: Num): Num {
    if a.Fin? && b.Fin? && b.v != 0.0 then Fin(a.v / b.v) else NaN
  }

  function AbsN(a: Num): Num {
    if a.Fin? then Fin(Abs(a.v)) else NaN
  }

  function Scale(k: real, a: Num): Num {
    if a.Fin? then Fin(k * a.v) else NaN
  }

  // Comparisons of floats: false as soon as one side is not finite.

  predicate Greater(a: Num, b: Num) {
    a.Fin? && b.Fin? && a.v > b.v
  }

  predicate Less(a: Num, b: Num) {
    a.Fin? && b.Fin? && a.v < b.v
  }

  predicate AtLeast(a: Num, b: Num) {
    a.Fin? && b.Fin? && a.v >= b.v
  }

  predicate AtMost(a: Num, b: Num) {
    a.Fin? && b.Fin? && a.v <= b.v
  }

  predicate Both(a: bool, b: bool) {
    a && b
  }
}
