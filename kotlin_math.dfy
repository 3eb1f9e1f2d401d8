/** The functions of kotlin.math that the filter calls, over the reals.
    Only the square root is given a meaning; the two inverse trigonometric
    functions stay uninterpreted, so no fact about angles depends on them. */
module KotlinMath {

  datatype Math = Math(sqrt: real -> real, atan2: (real, real) -> real, asin: real -> real)
  {
    /** `sqrt` returns the non-negative square root of every non-negative argument. */
    ghost predicate Valid() {
      forall x: real {:trigger sqrt(x)} :: 0.0 <= x ==> 0.0 <= sqrt(x) && sqrt(x) * sqrt(x) == x
    }
  }
}
