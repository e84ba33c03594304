/** Arithmetic environment of the model.

    The C++ engine computes in IEEE-754 doubles and calls the C maths library.
    The model computes over `real`; the transcendental functions and the angle
    wrappers of the library are not definable here, so they are the fields of
    a `Math` value that every evaluation receives, and `Lawful` states the few
    laws the proofs rely on. */
module Numerics {

  /** The library functions the engine calls. The angle constructors turn a
      value in degrees (`deg`), hours of local time (`hour`), days of the year
      (`doy`) and fractions of a day (`turn`) into radians. `divByZero(x)` is
      the non-finite double (an infinity or NaN) that dividing `x` by zero
      yields; reals have no such value. */
  datatype Math = Math(
    exp: real -> real,
    log: real -> real,
    log10: real -> real,
    pow: (real, real) -> real,
    sqrt: real -> real,
    sin: real -> real,
    cos: real -> real,
    deg: real -> real,
    hour: real -> real,
    doy: real -> real,
    turn: real -> real,
    divByZero: real -> real)

  /** The laws of the real functions that the proofs use, and no more. */
  ghost predicate Lawful(m: Math)
  {
    && m.exp(0.0) == 1.0
    && (forall x :: m.exp(x) > 0.0)
    && (forall x :: x > 0.0 ==> m.sqrt(x) > 0.0)
    && (forall x, y :: x > 0.0 ==> m.pow(x, y) > 0.0)
    && (forall y :: m.pow(1.0, y) == 1.0)
    && (forall x :: -1.0 <= m.cos(x) <= 1.0)
  }

  /** Double division: the quotient when the divisor is not zero. */
  function Div(m: Math, x: real, y: real): (q: real)
    ensures y != 0.0 ==> q * y == x
  {
    if y != 0.0 then x / y else m.divByZero(x)
  }

  /** `std::fabs` */
  function Abs(x: real): (r: real)
    ensures r >= 0.0 && (r == x || r == -x)
  {
    if x < 0.0 then -x else x
  }

  /** The larger of two values, as the engine's `(a > b) ? a : b`. */
  function Max(a: real, b: real): (r: real)
    ensures r >= a && r >= b && (r == a || r == b)
  {
    if a > b then a else b
  }

  /** The smaller of two values. */
  function Min(a: real, b: real): (r: real)
    ensures r <= a && r <= b && (r == a || r == b)
  {
    if a < b then a else b
  }

  /** The error codes of `AtmosModelException`. */
  datatype AtmosError = ValueOutOfRange | InvalidValue | MathmaticalError

  /** A computation that returns a value or throws an `AtmosModelException`. */
  datatype Result<+T> = Success(value: T) | Failure(error: AtmosError) {
    predicate IsFailure() { Failure? }

    function PropagateFailure<U>(): Result<U>
      requires Failure?
    {
      Failure(error)
    }

    function Extract(): T
      requires Success?
    {
      value
    }
  }
}
