/** Scalars as the Python layer receives them, and the casts it applies. */
module Numbers {

  /** Reals strictly between 3.1415 and 3.1416. */
  type PiRange = r: real | 3.1415 < r < 3.1416 witness 3.14159

  /** The value of numpy's pi.  Only its first four decimals are used. */
  const Pi: PiRange

  /** Truncation toward zero, the behaviour of Python's int() on a float. */
  function Trunc(x: real): (r: int)
    ensures 0.0 <= x ==> r as real <= x < r as real + 1.0
    ensures x < 0.0 ==> r as real - 1.0 < x <= r as real
  {
    if x >= 0.0 then x.Floor else -((-x).Floor)
  }

  /** A finite Python number.  A bool is also an int in Python. */
  datatype Scalar = PyBool(b: bool) | PyInt(i: int) | PyFloat(x: real) {

    /** isinstance(v, int) */
    predicate IsInt() {
      PyBool? || PyInt?
    }

    /** int(v) */
    function ToInt(): int {
      match this
      case PyBool(b) => if b then 1 else 0
      case PyInt(i) => i
      case PyFloat(x) => Trunc(x)
    }

    /** float(v) */
    function ToReal(): real {
      match this
      case PyBool(b) => if b then 1.0 else 0.0
      case PyInt(i) => i as real
      case PyFloat(x) => x
    }

    /** bool(v) */
    function ToBool(): bool {
      match this
      case PyBool(b) => b
      case PyInt(i) => i != 0
      case PyFloat(x) => x != 0.0
    }
  }
}
