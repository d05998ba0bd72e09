/** Python 2 integer arithmetic that differs from Dafny's. */
module PyArith {

  /**
   * Python 2's a / b on ints: the floor of the exact quotient (Dafny's own
   * division is Euclidean and differs for a negative divisor). A zero
   * divisor raises ZeroDivisionError, so callers must rule it out.
   */
  function FloorDiv(a: int, b: int): (q: int)
    requires b != 0
    ensures b > 0 ==> b * q <= a < b * q + b
    ensures b < 0 ==> b * q + b < a <= b * q
  {
    if b > 0 then a / b else (-a) / (-b)
  }
}
