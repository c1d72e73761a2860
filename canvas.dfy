/** What the canvas drawings are made of. Drawing calls themselves are not
    modelled; a drawing is the record of the coordinates it computes. The
    trigonometric functions are parameters that are only known to stay in
    [-1, 1] and, where a statement needs it, to repeat with some period. */
module Canvas {

  /** A point on a drawing surface. */
  datatype Point = Point(x: real, y: real)

  /** A straight stroke, as drawn by `moveTo` followed by `lineTo`. */
  datatype Segment = Segment(from: Point, to: Point)

  /** `Math.PI * 2` as the browser computes it. */
  const TwoPi: real := 6.283185307179586

  function Abs(r: real): (a: real)
    ensures a >= 0.0 && (a == r || a == -r)
  {
    if r < 0.0 then -r else r
  }

  function Max(a: real, b: real): (m: real)
    ensures m >= a && m >= b && (m == a || m == b)
  {
    if a >= b then a else b
  }

  /** The range of `Math.sin` and `Math.cos`. */
  ghost predicate UnitRange(f: real -> real) {
    forall t :: -1.0 <= f(t) <= 1.0
  }

  /** `f` repeats every `tau`. */
  ghost predicate Periodic(f: real -> real, tau: real) {
    forall t :: f(t + tau) == f(t)
  }

  /** Within the unit range, scaling by `a` stays within `a`. */
  lemma ScaledBound(f: real -> real, t: real, a: real)
    requires UnitRange(f) && a >= 0.0
    ensures -a <= f(t) * a <= a
  {
    var v := f(t);
    assert -1.0 <= v <= 1.0;
    if v >= 0.0 {
      assert v * a <= 1.0 * a;
    } else {
      assert -v * a <= 1.0 * a;
    }
  }

  /** A periodic function repeats after any whole number of periods. */
  lemma {:induction false} ShiftByPeriods(f: real -> real, tau: real, t: real, k: nat)
    requires Periodic(f, tau)
    ensures f(t + k as real * tau) == f(t)
  {
    if k > 0 {
      ShiftByPeriods(f, tau, t, k - 1);
      var u := t + (k - 1) as real * tau;
      assert f(u + tau) == f(u);
      assert u + tau == t + k as real * tau;
    }
  }

  /** Two points a whole number of periods apart give the same value. */
  lemma PeriodsApart(f: real -> real, tau: real, a: real, b: real, k: nat)
    requires Periodic(f, tau) && b == a + k as real * tau
    ensures f(b) == f(a)
  {
    ShiftByPeriods(f, tau, a, k);
  }
}
