/** The calibrated sampling model of the soil cores calculator: a quadratic
    scale factor in the coefficient of variation (CV) and a power law that
    links the allowed error (%) to the number of soil cores, in both
    directions.

    Arithmetic is exact `real` arithmetic. Real exponentiation `x ** e` has
    no counterpart in Dafny, so every operation takes it as a parameter
    `pow`; what a lemma needs to know about it is spelled out by the
    predicates `PositiveOnPositive` and `InverseLaw`. */
module SamplingModel {

  /** Why a computation has no real-valued result. */
  datatype DomainError =
    | ZeroToNegativePower  // `0 ** e` with e < 0: the script raises a division-by-zero error
    | NonRealPower         // a negative base with a fractional exponent has no real value

  datatype Result<T> = Ok(value: T) | Err(error: DomainError)

  /** Real exponentiation, `pow(x, e)` standing for `x ** e`. */
  type Power = (real, real) -> real

  /** A positive base raised to any power is positive. */
  ghost predicate PositiveOnPositive(pow: Power) {
    forall x, e :: x > 0.0 ==> pow(x, e) > 0.0
  }

  /** For a positive base, raising to `e` and then to `1 / e` gives the base
      back, as it does for exact real exponentiation. */
  ghost predicate InverseLaw(pow: Power) {
    forall x, e :: x > 0.0 && e != 0.0 ==> pow(pow(x, e), 1.0 / e) == x
  }

  // Coefficients of the calibration polynomial a(cv) = C2 cv^2 + C1 cv + C0
  const C2: real := 4.80
  const C1: real := -86.97
  const C0: real := 1782.71

  /** Exponent of the power law: cores = a(cv) * error ^ B. */
  const B: real := -1.98

  /** Exponent of the inverse: error = (cores / a(cv)) ^ (1 / B). */
  const InverseExponent: real := 1.0 / B

  const Discriminant: real := C1 * C1 - 4.0 * C2 * C0
  /** Where the upward-opening parabola has its minimum. */
  const Vertex: real := -C1 / (2.0 * C2)
  /** The smallest value the scale factor takes. */
  const MinScale: real := -Discriminant / (4.0 * C2)

  /** The scale factor a(cv). It is total and never below MinScale, which is
      positive because the discriminant is negative: no CV drives it to zero
      or below. */
  function ScaleFactor(cv: real): (a: real)
    ensures a >= MinScale > 0.0
  {
    var d := cv - Vertex;
    assert C2 * cv * cv + C1 * cv + C0 == C2 * (d * d) + MinScale;
    C2 * cv * cv + C1 * cv + C0
  }

  /** The bound in ScaleFactor's contract is attained, so it is the minimum. */
  lemma ScaleFactorMinimum()
    ensures Discriminant < 0.0
    ensures ScaleFactor(Vertex) == MinScale
    ensures Vertex == 9.059375 && MinScale == 1388.763078125
  {
  }

  /** The worked value at the default CV: 4320 - 2609.1 + 1782.71. */
  lemma ScaleFactorAt30()
    ensures ScaleFactor(30.0) == 3493.61
  {
  }

  /** Number of cores for an allowed error (%) at a CV: the power law clamped
      at zero from below. A zero error is a division by zero (zero raised to
      the negative exponent); a negative error has no real power (the script
      gets a complex value there, which then fails the comparison with zero). */
  function CoresFromError(pow: Power, error: real, cv: real): (r: Result<real>)
    ensures r.Ok? <==> error > 0.0
    ensures error == 0.0 ==> r == Err(ZeroToNegativePower)
    ensures error < 0.0 ==> r == Err(NonRealPower)
    ensures r.Ok? ==> r.value >= 0.0
  {
    if error == 0.0 then Err(ZeroToNegativePower)
    else if error < 0.0 then Err(NonRealPower)
    else
      var n := ScaleFactor(cv) * pow(error, B);
      Ok(if 0.0 > n then 0.0 else n)
  }

  /** Allowed error (%) for a number of cores at a CV, by inverting the power
      law; the division by a(cv) is always defined because a(cv) > 0. */
  function ErrorFromCores(pow: Power, cores: real, cv: real): (r: Result<real>)
    ensures r.Ok? <==> cores > 0.0
    ensures cores == 0.0 ==> r == Err(ZeroToNegativePower)
    ensures cores < 0.0 ==> r == Err(NonRealPower)
    ensures r.Ok? && PositiveOnPositive(pow) ==> r.value > 0.0
  {
    var ratio := cores / ScaleFactor(cv);
    if ratio == 0.0 then Err(ZeroToNegativePower)
    else if ratio < 0.0 then Err(NonRealPower)
    else Ok(pow(ratio, InverseExponent))
  }

  /** For a positive error the clamp never fires: the result is the power law
      itself, and it is positive. */
  lemma ClampInactive(pow: Power, error: real, cv: real)
    requires PositiveOnPositive(pow)
    requires error > 0.0
    ensures CoresFromError(pow, error, cv) == Ok(ScaleFactor(cv) * pow(error, B))
    ensures CoresFromError(pow, error, cv).value > 0.0
  {
  }

  /** Both directions read CV only through the one scale factor a(cv). */
  lemma SharedScaleFactor(pow: Power, x: real, cv1: real, cv2: real)
    requires ScaleFactor(cv1) == ScaleFactor(cv2)
    ensures CoresFromError(pow, x, cv1) == CoresFromError(pow, x, cv2)
    ensures ErrorFromCores(pow, x, cv1) == ErrorFromCores(pow, x, cv2)
  {
  }

  /** Error -> cores -> error gives the error back under exact exponentiation. */
  lemma ErrorRoundTrip(pow: Power, error: real, cv: real)
    requires PositiveOnPositive(pow) && InverseLaw(pow)
    requires error > 0.0
    ensures ErrorFromCores(pow, CoresFromError(pow, error, cv).value, cv) == Ok(error)
  {
    var a := ScaleFactor(cv);
    var p := pow(error, B);
    ClampInactive(pow, error, cv);
    assert (a * p) / a == p;
    assert pow(p, 1.0 / B) == error;
    assert InverseExponent == 1.0 / B;
    assert ErrorFromCores(pow, a * p, cv) == Ok(pow(p, InverseExponent));
  }

  /** A positive error whose power law lands on `target` yields exactly
      `target`: the clamp does not fire. */
  lemma ForwardHits(pow: Power, error: real, cv: real, target: real)
    requires PositiveOnPositive(pow) && error > 0.0
    requires target == ScaleFactor(cv) * pow(error, B)
    ensures CoresFromError(pow, error, cv) == Ok(target)
  {
  }

  /** Cores -> error -> cores gives the cores back under exact exponentiation. */
  lemma CoresRoundTrip(pow: Power, cores: real, cv: real)
    requires PositiveOnPositive(pow) && InverseLaw(pow)
    requires cores > 0.0
    ensures CoresFromError(pow, ErrorFromCores(pow, cores, cv).value, cv) == Ok(cores)
  {
    var ratio := cores / ScaleFactor(cv);
    var e := pow(ratio, InverseExponent);
    assert 1.0 / InverseExponent == B;
    assert pow(e, 1.0 / InverseExponent) == ratio;
    assert pow(e, B) == ratio;
    assert ErrorFromCores(pow, cores, cv) == Ok(e);
    ForwardHits(pow, e, cv, cores);
  }
}
