/**
 * Sizes, measurement constraints and the ceiling rounding the UWP renderer
 * applies to every native desired size. Doubles are modelled as reals and
 * positive infinity as the `Unbounded` extent.
 */
module Geometry {

  /** A width/height pair (Windows.Foundation.Size, Xamarin.Forms.Size). */
  datatype Size = Size(width: real, height: real)

  /** What a native widget reports as its desired size: never negative. */
  type DesiredSize = s: Size | s.width >= 0.0 && s.height >= 0.0 witness Size(0.0, 0.0)

  /** One dimension of a constraint: a finite value or positive infinity. */
  datatype Extent = Finite(value: real) | Unbounded

  /** The space a parent offers a child during measurement. */
  datatype Constraint = Constraint(width: Extent, height: Extent)

  /** The renderer's static `_zeroSize`, used for calibration measures. */
  const ZeroConstraint := Constraint(Finite(0.0), Finite(0.0))

  /** Margin and padding insets. */
  datatype Thickness = Thickness(left: real, top: real, right: real, bottom: real)

  /** Xamarin.Forms.SizeRequest: the size a view asks for and its minimum. */
  datatype SizeRequest = SizeRequest(request: Size, minimum: Size)

  /** `new SizeRequest()`: both sizes zero. */
  const ZeroRequest := SizeRequest(Size(0.0, 0.0), Size(0.0, 0.0))

  /** `new SizeRequest(size)`: request and minimum are the same size. */
  function Exact(s: Size): SizeRequest {
    SizeRequest(s, s)
  }

  predicate IsIntegral(x: real) {
    x.Floor as real == x
  }

  lemma FloorBounds(y: real)
    ensures y.Floor as real <= y < y.Floor as real + 1.0
  {}

  lemma WholeNumberIsIntegral(n: int)
    ensures (n as real).Floor == n
  {}

  /** Math.Ceiling on a finite value: the least whole number not below `x`. */
  function Ceiling(x: real): (r: real)
    ensures IsIntegral(r)
    ensures x <= r < x + 1.0
  {
    var f := (-x).Floor;
    FloorBounds(-x);
    WholeNumberIsIntegral(-f);
    -(f as real)
  }

  /** No whole number at or above `x` lies below `Ceiling(x)`. */
  lemma CeilingIsLeast(x: real, n: int)
    requires x <= n as real
    ensures Ceiling(x) <= n as real
  {
    var f := (-x).Floor;
    assert -(n as real) <= -x;
    assert -n <= f;
  }

  /** Both dimensions of a desired size rounded up, as the renderer returns them. */
  function RoundUp(d: DesiredSize): (r: Size)
    ensures IsIntegral(r.width) && IsIntegral(r.height)
    ensures d.width <= r.width < d.width + 1.0
    ensures d.height <= r.height < d.height + 1.0
    ensures r.width >= 0.0 && r.height >= 0.0
  {
    Size(Ceiling(d.width), Ceiling(d.height))
  }
}
