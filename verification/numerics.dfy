/** The floating-point library functions the source calls (numpy's sqrt,
    log1p and expm1) as an abstract record of functions. Only the facts the
    source relies on are assumed of them, through `Sound`. */
module Numerics {

  datatype Numerics = Numerics(sqrt: real -> real, log1p: real -> real, expm1: real -> real)

  ghost predicate Sound(n: Numerics) {
    && (forall v: real :: 0.0 <= v ==> 0.0 <= n.sqrt(v))
    && (forall y: real :: 0.0 <= y ==> n.expm1(n.log1p(y)) == y)
  }
}
