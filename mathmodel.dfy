/**
 * The engine's maths library, kept uninterpreted. Each function the simulation
 * calls is a field of a record; the predicate Lawful() states the handful of
 * facts the proofs rely on and nothing more. Floating-point division by zero
 * (which yields an infinity or NaN) is an unconstrained value.
 */
module MathModel {

  datatype MathLib = MathLib(
    pi: real,
    sqrt: real -> real,
    cos: real -> real,
    sin: real -> real,
    atan2: (real, real) -> real,
    overZero: real -> real)
  {
    /** The facts about the library that the model uses. */
    ghost predicate Lawful()
    {
      && 3.14 < pi < 3.15
      && cos(0.0) == 1.0
      && cos(pi) == -1.0
      && (forall x :: cos(x) * cos(x) + sin(x) * sin(x) == 1.0)
      && (forall x :: x > 0.0 ==> sqrt(x) > 0.0)
      && (forall x :: x < 0.0 ==> atan2(0.0, x) == pi)
      && (forall x :: x > 0.0 ==> atan2(0.0, x) == 0.0)
    }

    /** Floating-point quotient: exact for a non-zero divisor, unspecified otherwise. */
    function Div(x: real, y: real): (q: real)
      ensures y != 0.0 ==> q * y == x
    {
      if y == 0.0 then overZero(x) else x / y
    }

    /** Degrees to radians. */
    function Deg2Rad(): real
    {
      pi / 180.0
    }
  }

  /** The facts are consistent: a step-function library satisfies all of them. */
  lemma LawfulLibraryExists()
    ensures exists m: MathLib :: m.Lawful()
  {
    var pi := 3.1416;
    var m := MathLib(pi,
                     x => if x > 0.0 then 1.0 else 0.0,
                     x => if x == pi then -1.0 else 1.0,
                     x => 0.0,
                     (y, x) => if x < 0.0 then pi else 0.0,
                     x => 0.0);
    assert m.Lawful();
  }
}
