/**
 * Shared vocabulary of the coverage engine: the result and option types
 * that stand for Python's exceptions and `None`, the errors the propagation
 * code raises, and the floating-point primitives (`math.log10`,
 * `math.sqrt`, `math.pi`) kept uninterpreted.
 */
module Common {

  /** A value or the exception that replaced it. */
  datatype Result<+T, +E> = Success(value: T) | Failure(error: E) {
    predicate IsFailure() { Failure? }

    function PropagateFailure<U>(): Result<U, E>
      requires Failure?
    {
      Failure(error)
    }

    function Extract(): T
      requires Success?
    {
      value
    }
  }

  datatype Option<+T> = None | Some(value: T)

  /** The physical quantities whose ranges the models check. */
  datatype Quantity = Frequency | AntennaHeight | MobileHeight | Distance

  /**
   * The exceptions raised by the propagation engine. `OutOfRange` carries
   * the bounds named in the message, so that two models that reject the same
   * quantity with different ranges raise different errors.
   */
  datatype Error =
    | OutOfRange(quantity: Quantity, lo: real, hi: real)
    | InvalidAreaType
    | NonPositiveInput                                  // free-space loss of f <= 0 or d <= 0
    | UnsupportedScenario(scenario: string, supported: seq<string>)
    | MathDomain                                        // math.log10 of a value <= 0
    | ZeroDivision                                      // ZeroDivisionError
    | NegativeSampleCount                               // numpy.linspace with a negative count
    | UnboundCoveredArea                                // NameError on `covered_area`

  /** True of the errors Python raises as `ValueError` (or a subclass). */
  predicate IsValueError(e: Error) {
    !(e.ZeroDivision? || e.UnboundCoveredArea?)
  }

  type Positive = x: real | x > 0.0 witness 1.0

  /**
   * The floating-point primitives the formulas use. They are parameters of
   * the model, so nothing is assumed about their values beyond `pi > 0`;
   * lemmas that need more say so with `SqrtSound` or `Log10Sound`.
   */
  datatype Math = Math(log10: real -> real, sqrt: real -> real, pi: Positive)

  /** `sqrt` returns the non-negative square root of a non-negative argument. */
  ghost predicate SqrtSound(m: Math) {
    forall x :: 0.0 <= x ==> 0.0 <= m.sqrt(x) && m.sqrt(x) * m.sqrt(x) == x
  }

  /** `log10` is strictly increasing on the positive reals and log10(1000) = 3. */
  ghost predicate Log10Sound(m: Math) {
    && (forall x, y :: 0.0 < x < y ==> m.log10(x) < m.log10(y))
    && m.log10(1000.0) == 3.0
  }

  /** `log10` of a square is twice the `log10` of the positive root. */
  ghost predicate Log10OfSquare(m: Math) {
    forall x :: 0.0 < x ==> m.log10(Sq(x)) == 2.0 * m.log10(x)
  }

  /** Python's `x ** 2`. */
  function Sq(x: real): real { x * x }

  lemma SqNonNegative(x: real)
    ensures Sq(x) >= 0.0
  {
    if x < 0.0 {
      assert Sq(x) == (-x) * (-x);
    }
  }

  /** `math.log10(x)`, which raises `ValueError` when `x <= 0`. */
  function Log10Checked(m: Math, x: real): (r: Result<real, Error>)
    ensures r.Failure? <==> x <= 0.0
    ensures r.Failure? ==> r.error == MathDomain
    ensures r.Success? ==> r.value == m.log10(x)
  {
    if x <= 0.0 then Failure(MathDomain) else Success(m.log10(x))
  }

  /** Python's `int(x)` on a float: truncation toward zero. */
  function Trunc(x: real): (r: int)
    ensures x >= 0.0 ==> 0 <= r && r as real <= x < r as real + 1.0
    ensures x < 0.0 ==> r <= 0 && r as real - 1.0 < x <= r as real
  {
    if x >= 0.0 then x.Floor else -((-x).Floor)
  }

  /** The non-negative root dominates each side of a right triangle. */
  lemma SqrtDominates(m: Math, a: real, b: real)
    requires SqrtSound(m)
    requires 0.0 <= a
    ensures a <= m.sqrt(a * a + b * b)
  {
    var s := m.sqrt(a * a + b * b);
    SqNonNegative(b);
    assert 0.0 <= b * b;
    assert 0.0 <= s && s * s == a * a + b * b;
    assert a * a <= s * s;
    if s < a {
      SquareStrictlyMonotone(s, a);
    }
  }

  lemma SquareStrictlyMonotone(x: real, y: real)
    requires 0.0 <= x < y
    ensures x * x < y * y
  {
    var xx, xy, yy := x * x, x * y, y * y;
    assert xx <= xy;
    assert xy < yy;
  }
}
