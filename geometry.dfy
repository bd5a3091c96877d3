/**
 * Shapes and the isotropic scale transform that carries shape estimates from
 * one pyramid scale to the next (menpo's `Scale(factor, n_dims=2)`).
 * Coordinates are exact reals: floating-point rounding is not modelled.
 */
module Geometry {

  /** A 2D landmark coordinate, in menpo's (y, x) order. */
  datatype Point = Point(y: real, x: real)

  /** An ordered sequence of 2D landmarks. */
  type Shape = seq<Point>

  /** Shape estimates of one batch: one list of candidate shapes per image. */
  type Estimates = seq<seq<Shape>>

  function ScalePoint(p: Point, factor: real): Point
  {
    Point(p.y * factor, p.x * factor)
  }

  /** Multiplies every coordinate of `s` by `factor`. */
  function ScaleShape(s: Shape, factor: real): (r: Shape)
    ensures |r| == |s|
  {
    seq(|s|, i requires 0 <= i < |s| => ScalePoint(s[i], factor))
  }

  /** Applies the same isotropic scale to every shape of every image. */
  function Propagated(shapes: Estimates, factor: real): (r: Estimates)
    ensures |r| == |shapes|
    ensures forall i :: 0 <= i < |r| ==> |r[i]| == |shapes[i]|
  {
    seq(|shapes|, i requires 0 <= i < |shapes| =>
      seq(|shapes[i]|, k requires 0 <= k < |shapes[i]| => ScaleShape(shapes[i][k], factor)))
  }

  /** Scaling by `a` and then by `b` is scaling by `a * b`. */
  lemma ScaleShapeCompose(s: Shape, a: real, b: real)
    ensures ScaleShape(ScaleShape(s, a), b) == ScaleShape(s, a * b)
  {
    var l, r := ScaleShape(ScaleShape(s, a), b), ScaleShape(s, a * b);
    forall i | 0 <= i < |s|
      ensures l[i] == r[i]
    {
      calc {
        l[i];
        Point(s[i].y * a * b, s[i].x * a * b);
        { assert s[i].y * a * b == s[i].y * (a * b); assert s[i].x * a * b == s[i].x * (a * b); }
        r[i];
      }
    }
  }

  /**
   * The shape that a shape in the frame of scale `first` becomes once it is
   * carried, one level at a time, into the frame of scale `last`: after each
   * level j it is multiplied by scales[j + 1] / scales[j].
   */
  function CarriedAcross(s: Shape, scales: seq<real>, first: nat, last: nat): (r: Shape)
    requires first <= last < |scales|
    requires forall j :: first <= j < last ==> scales[j] != 0.0
    ensures |r| == |s|
    decreases last
  {
    if first == last then s
    else ScaleShape(CarriedAcross(s, scales, first, last - 1), scales[last] / scales[last - 1])
  }

  /** Local proof helper: a product of two ratios with a shared middle term. */
  lemma RatioProduct(a: real, b: real, c: real)
    requires a != 0.0 && b != 0.0
    ensures (b / a) * (c / b) == c / a
  {
    var x, y := b / a, c / b;
    assert x * a == b && y * b == c;
    assert (x * y) * a == y * (x * a);
  }

  /** Scaling by b / a and then by c / b is scaling by c / a. */
  lemma ScaleByRatios(s: Shape, a: real, b: real, c: real)
    requires a != 0.0 && b != 0.0
    ensures ScaleShape(ScaleShape(s, b / a), c / b) == ScaleShape(s, c / a)
  {
    var x, y := b / a, c / b;
    ScaleShapeCompose(s, x, y);
    RatioProduct(a, b, c);
    assert x * y == c / a;
  }

  /** Scaling by a / a changes nothing. */
  lemma ScaleByUnitRatio(s: Shape, a: real)
    requires a != 0.0
    ensures ScaleShape(s, a / a) == s
  {
    assert a / a == 1.0;
  }

  /**
   * Frame consistency of the cross-scale propagation: the per-level ratios
   * telescope, so a shape carried from scale `first` to scale `last` is the
   * original shape multiplied by scales[last] / scales[first].
   */
  lemma {:induction false} CarriedAcrossIsOneScale(s: Shape, scales: seq<real>, first: nat, last: nat)
    requires first <= last < |scales|
    requires forall j :: first <= j <= last ==> scales[j] != 0.0
    ensures CarriedAcross(s, scales, first, last) == ScaleShape(s, scales[last] / scales[first])
    decreases last
  {
    if first == last {
      ScaleByUnitRatio(s, scales[first]);
    } else {
      CarriedAcrossIsOneScale(s, scales, first, last - 1);
      ScaleByRatios(s, scales[first], scales[last - 1], scales[last]);
    }
  }
}
