/**
 * Acceleration readings, the swing-threshold test and the choice of a
 * swing-sound variant from a uniform random draw.
 *
 * The components compare `sqrt(x² + y² + z²)` against a non-negative
 * threshold. Over the reals, and for a non-negative threshold, that is the
 * same as comparing the squared magnitude against the squared threshold,
 * which is what this module does (see `ExceedsIffMagnitudeAbove`).
 */
module Motion {
  import opened Wrappers

  /** One `event.acceleration` reading; the platform may leave any axis null. */
  datatype Axes = Axes(x: Option<real>, y: Option<real>, z: Option<real>)

  /** A draw of the platform's uniform random source: a real in [0, 1). */
  type Unit = r: real | 0.0 <= r < 1.0 witness 0.0

  /** The value one axis contributes: a missing axis reads as 0 (`v || 0`). */
  function AxisValue(v: Option<real>): real {
    v.GetOr(0.0)
  }

  /** The squared length of the acceleration vector, missing axes read as 0. */
  function MagnitudeSquared(a: Axes): (q: real)
    ensures q >= 0.0
    ensures a.x.None? && a.y.None? && a.z.None? ==> q == 0.0
  {
    var x, y, z := AxisValue(a.x), AxisValue(a.y), AxisValue(a.z);
    x * x + y * y + z * z
  }

  /**
   * Each missing axis reads as 0 on its own, whatever the other two axes
   * hold: a null axis contributes exactly what an axis reading 0 does.
   */
  lemma MissingAxisReadsZero(a: Axes)
    ensures MagnitudeSquared(a.(x := None)) == MagnitudeSquared(a.(x := Some(0.0)))
    ensures MagnitudeSquared(a.(y := None)) == MagnitudeSquared(a.(y := Some(0.0)))
    ensures MagnitudeSquared(a.(z := None)) == MagnitudeSquared(a.(z := Some(0.0)))
  {
  }

  /** Whether the magnitude of `a` is strictly above `threshold`, without a square root. */
  predicate Exceeds(a: Axes, threshold: real) {
    MagnitudeSquared(a) > threshold * threshold
  }

  /**
   * For a non-negative threshold, the squared test agrees with the source's
   * test on the real magnitude `m` (the non-negative root of the squared
   * magnitude), in both directions. A magnitude equal to the threshold
   * does not exceed it.
   */
  lemma ExceedsIffMagnitudeAbove(a: Axes, threshold: real, m: real)
    requires threshold >= 0.0 && m >= 0.0
    requires m * m == MagnitudeSquared(a)
    ensures Exceeds(a, threshold) <==> m > threshold
  {
    if m > threshold {
      SquareStrict(threshold, m);
    } else if m < threshold {
      SquareStrict(m, threshold);
    }
  }

  /** Squaring is strictly monotone on the non-negative reals. */
  lemma SquareStrict(u: real, v: real)
    requires 0.0 <= u < v
    ensures u * u < v * v
  {
    var uu, uv, vv := u * u, u * v, v * v;
    assert uu <= uv;
    assert uv < vv;
  }

  /** The textbook 3-4-5 check, with the third axis missing: magnitude 5. */
  lemma MagnitudeOfThreeFourMissing()
    ensures MagnitudeSquared(Axes(Some(3.0), Some(4.0), None)) == 5.0 * 5.0
    ensures !Exceeds(Axes(Some(3.0), Some(4.0), None), 5.0)
    ensures Exceeds(Axes(Some(3.0), Some(4.0), None), 4.9)
  {
  }

  /**
   * The variant picked by `Math.floor(Math.random() * n)`: the floor of
   * `r * n`. It always names one of the `n` variants.
   */
  function VariantIndex(r: Unit, n: nat): (i: nat)
    requires n >= 1
    ensures i < n
  {
    var scaled := r * n as real;
    assert 0.0 <= scaled < n as real by {
      assert r * n as real < 1.0 * n as real;
    }
    scaled.Floor
  }

  /**
   * The draws that pick variant `i` are exactly those in
   * [i / n, (i + 1) / n): every variant is picked by an interval of the
   * same width 1 / n, so a uniform draw picks each variant with the same
   * probability.
   */
  lemma VariantPreimage(r: Unit, n: nat, i: nat)
    requires n >= 1 && i < n
    ensures VariantIndex(r, n) == i <==>
              i as real / n as real <= r < (i + 1) as real / n as real
  {
  }

  /** With a single variant every draw picks variant 0. */
  lemma SingleVariantAlwaysFirst(r: Unit)
    ensures VariantIndex(r, 1) == 0
  {
  }
}
