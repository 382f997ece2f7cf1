/**
 * The geometry kernel: perimeter, Shoelace area, validity, centroid,
 * bounding box and rotation of ordered 2D point lists.
 */
module PolygonCalculator {
  import opened RealMath
  import opened FloorPlanModels

  /** Minimum area, in square meters, of a valid polygon. */
  const MinPolygonArea: real := 0.001

  /** Squared Euclidean distance between two floor points. */
  function SquaredDistance(a: Vector2, b: Vector2): (d2: real)
    ensures 0.0 <= d2
  {
    SquareNonNegative(b.x - a.x);
    SquareNonNegative(b.y - a.y);
    Square(b.x - a.x) + Square(b.y - a.y)
  }

  /** Euclidean distance between two floor points (`dx = b.x - a.x`). */
  function Distance(sqrt: real -> real, a: Vector2, b: Vector2): (d: real)
    requires IsSqrt(sqrt)
    ensures 0.0 <= d
  {
    assert IsRootAt(sqrt, SquaredDistance(a, b));
    sqrt(SquaredDistance(a, b))
  }

  /** The distance is the non-negative root of the sum of squared coordinate differences. */
  lemma DistanceSquared(sqrt: real -> real, a: Vector2, b: Vector2)
    requires IsSqrt(sqrt)
    ensures Distance(sqrt, a, b) * Distance(sqrt, a, b) == SquaredDistance(a, b)
  {
    assert IsRootAt(sqrt, SquaredDistance(a, b));
  }

  lemma DistanceSymmetric(sqrt: real -> real, a: Vector2, b: Vector2)
    requires IsSqrt(sqrt)
    ensures Distance(sqrt, a, b) == Distance(sqrt, b, a)
  {
    assert Square(b.x - a.x) == Square(a.x - b.x);
    assert Square(b.y - a.y) == Square(a.y - b.y);
  }

  /** Distance is zero exactly between identical points. */
  lemma DistanceZeroIff(sqrt: real -> real, a: Vector2, b: Vector2)
    requires IsSqrt(sqrt)
    ensures Distance(sqrt, a, b) == 0.0 <==> a == b
  {
    if a == b {
      SqrtUnique(sqrt, 0.0, 0.0);
    } else {
      assert SquaredDistance(a, b) > 0.0 by {
        SquareNonNegative(b.x - a.x);
        SquareNonNegative(b.y - a.y);
        if b.x != a.x {
          SquarePositive(b.x - a.x);
        } else {
          assert a == Vector2(a.x, a.y) && b == Vector2(b.x, b.y);
          SquarePositive(b.y - a.y);
        }
      }
      DistanceSquared(sqrt, a, b);
    }
  }

  /** A known root of the squared distance is the distance. */
  lemma DistanceIs(sqrt: real -> real, a: Vector2, b: Vector2, r: real)
    requires IsSqrt(sqrt)
    requires 0.0 <= r && SquaredDistance(a, b) == r * r
    ensures Distance(sqrt, a, b) == r
  {
    SqrtUnique(sqrt, SquaredDistance(a, b), r);
  }

  // ---------------------------------------------------------------- perimeter

  /** Length of the open polyline through `points`. */
  function PathLength(sqrt: real -> real, points: seq<Vector2>): (len: real)
    requires IsSqrt(sqrt)
    ensures 0.0 <= len
    decreases |points|
  {
    if |points| < 2 then 0.0
    else PathLength(sqrt, points[..|points| - 1]) + Distance(sqrt, points[|points| - 2], points[|points| - 1])
  }

  /** Perimeter of the path, with the wrap-around edge when closed; 0 below two points. */
  function Perimeter(sqrt: real -> real, points: seq<Vector2>, isClosed: bool): (p: real)
    requires IsSqrt(sqrt)
    ensures 0.0 <= p
    ensures |points| < 2 ==> p == 0.0
  {
    if |points| < 2 then 0.0
    else PathLength(sqrt, points) + (if isClosed then Distance(sqrt, points[|points| - 1], points[0]) else 0.0)
  }

  /** `calculatePerimeter`: accumulates edge lengths in an index loop. */
  method CalculatePerimeter(sqrt: real -> real, points: seq<Vector2>, isClosed: bool) returns (perimeter: real)
    requires IsSqrt(sqrt)
    ensures perimeter == Perimeter(sqrt, points, isClosed)
  {
    if |points| < 2 {
      return 0.0;
    }
    perimeter := 0.0;
    var n := |points|;
    var limit := if isClosed then n else n - 1;
    for i := 0 to limit
      invariant perimeter == if i < n then PathLength(sqrt, points[..i + 1]) else Perimeter(sqrt, points, true)
    {
      var current := points[i];
      WrapIndex(i + 1, n);
      var next := points[(i + 1) % n];
      if i + 1 < n {
        PathLengthPrefixStep(sqrt, points, i);
      } else {
        assert points[..i + 1] == points;
      }
      perimeter := perimeter + Distance(sqrt, current, next);
    }
    assert points[..n] == points;
  }

  /** The loops' `(i + 1) % n` is the next index, wrapping to 0 after the last. */
  lemma WrapIndex(k: nat, n: nat)
    requires 0 < n && k <= n
    ensures k % n == if k < n then k else 0
  {}

  /** One more step of the perimeter loop adds the edge to the next point. */
  lemma PathLengthPrefixStep(sqrt: real -> real, points: seq<Vector2>, i: nat)
    requires IsSqrt(sqrt)
    requires i + 2 <= |points|
    ensures PathLength(sqrt, points[..i + 2]) == PathLength(sqrt, points[..i + 1]) + Distance(sqrt, points[i], points[i + 1])
  { assert points[..i + 2][..i + 1] == points[..i + 1]; }

  /** A closed perimeter is the open one plus the edge from the last point back to the first. */
  lemma ClosedPerimeterAddsWrapEdge(sqrt: real -> real, points: seq<Vector2>)
    requires IsSqrt(sqrt)
    requires 2 <= |points|
    ensures Perimeter(sqrt, points, true)
         == Perimeter(sqrt, points, false) + Distance(sqrt, points[|points| - 1], points[0])
  {
  }

  lemma {:induction false} PathLengthCons(sqrt: real -> real, a: Vector2, q: seq<Vector2>)
    requires IsSqrt(sqrt)
    requires 1 <= |q|
    ensures PathLength(sqrt, [a] + q) == Distance(sqrt, a, q[0]) + PathLength(sqrt, q)
    decreases |q|
  {
    if |q| == 1 {
      assert ([a] + q)[..1] == [a];
    } else {
      var init := q[..|q| - 1];
      PathLengthCons(sqrt, a, init);
      assert ([a] + q)[..|q|] == [a] + init;
    }
  }

  /** The points in reverse order. */
  function Reversed(points: seq<Vector2>): (r: seq<Vector2>)
    ensures |r| == |points|
  {
    seq(|points|, i requires 0 <= i < |points| => points[|points| - 1 - i])
  }

  lemma {:induction false} PathLengthReversed(sqrt: real -> real, points: seq<Vector2>)
    requires IsSqrt(sqrt)
    ensures PathLength(sqrt, Reversed(points)) == PathLength(sqrt, points)
    decreases |points|
  {
    var n := |points|;
    if n >= 2 {
      var init := points[..n - 1];
      PathLengthReversed(sqrt, init);
      assert Reversed(points) == [points[n - 1]] + Reversed(init);
      PathLengthCons(sqrt, points[n - 1], Reversed(init));
      DistanceSymmetric(sqrt, points[n - 1], points[n - 2]);
    }
  }

  /** Walking the path backwards gives the same perimeter, open or closed. */
  lemma PerimeterReversed(sqrt: real -> real, points: seq<Vector2>, isClosed: bool)
    requires IsSqrt(sqrt)
    ensures Perimeter(sqrt, Reversed(points), isClosed) == Perimeter(sqrt, points, isClosed)
  {
    PathLengthReversed(sqrt, points);
    if |points| >= 2 {
      DistanceSymmetric(sqrt, points[|points| - 1], points[0]);
    }
  }

  // ---------------------------------------------------------------- area

  /** The Shoelace term of the edge from `a` to `b`. */
  function Cross(a: Vector2, b: Vector2): real {
    a.x * b.y - b.x * a.y
  }

  /** Shoelace terms of the open polyline through `points`. */
  function PathCross(points: seq<Vector2>): real
    decreases |points|
  {
    if |points| < 2 then 0.0
    else PathCross(points[..|points| - 1]) + Cross(points[|points| - 2], points[|points| - 1])
  }

  /** Twice the signed area: Shoelace terms of every edge, including the closing one. */
  function ShoelaceSum(points: seq<Vector2>): real {
    if points == [] then 0.0 else PathCross(points) + Cross(points[|points| - 1], points[0])
  }

  /** Shoelace area of the polygon; 0 below three points. */
  function Area(points: seq<Vector2>): (area: real)
    ensures 0.0 <= area
    ensures |points| < 3 ==> area == 0.0
  {
    if |points| < 3 then 0.0 else Abs(ShoelaceSum(points)) / 2.0
  }

  /** `calculateArea`: the Shoelace sum accumulated in an index loop. */
  method CalculateArea(points: seq<Vector2>) returns (area: real)
    ensures area == Area(points)
  {
    if |points| < 3 {
      return 0.0;
    }
    var sum := 0.0;
    for i := 0 to |points|
      invariant sum == if i < |points| then PathCross(points[..i + 1]) else ShoelaceSum(points)
    {
      var current := points[i];
      var next := points[(i + 1) % |points|];
      var term := (current.x * next.y) - (next.x * current.y);
      assert term == Cross(current, next);
      if i + 1 < |points| {
        assert (i + 1) % |points| == i + 1;
        PathCrossPrefixStep(points, i);
      } else {
        assert (i + 1) % |points| == 0;
        assert points[..i + 1] == points;
      }
      sum := sum + term;
    }
    area := Abs(sum) / 2.0;
  }

  /** Extending the prefix by one point adds the term of its new edge. */
  lemma PathCrossPrefixStep(points: seq<Vector2>, i: nat)
    requires i + 2 <= |points|
    ensures PathCross(points[..i + 2]) == PathCross(points[..i + 1]) + Cross(points[i], points[i + 1])
  {
    assert points[..i + 2][..i + 1] == points[..i + 1];
  }

  lemma {:induction false} PathCrossCons(a: Vector2, q: seq<Vector2>)
    requires 1 <= |q|
    ensures PathCross([a] + q) == Cross(a, q[0]) + PathCross(q)
    decreases |q|
  {
    if |q| == 1 {
      assert ([a] + q)[..1] == [a];
    } else {
      var init := q[..|q| - 1];
      PathCrossCons(a, init);
      assert ([a] + q)[..|q|] == [a] + init;
    }
  }

  lemma {:induction false} PathCrossReversed(points: seq<Vector2>)
    ensures PathCross(Reversed(points)) == -PathCross(points)
    decreases |points|
  {
    var n := |points|;
    if n >= 2 {
      var init := points[..n - 1];
      var rest := Reversed(init);
      PathCrossReversed(init);
      assert Reversed(points) == [points[n - 1]] + rest;
      assert rest[0] == points[n - 2];
      PathCrossCons(points[n - 1], rest);
      CrossAntisymmetric(points[n - 2], points[n - 1]);
    }
  }

  lemma CrossAntisymmetric(a: Vector2, b: Vector2)
    ensures Cross(b, a) == -Cross(a, b)
  {
  }

  /** Reversing the winding order leaves the area unchanged. */
  lemma AreaReversed(points: seq<Vector2>)
    ensures Area(Reversed(points)) == Area(points)
  {
    if points != [] {
      PathCrossReversed(points);
      assert ShoelaceSum(Reversed(points)) == -ShoelaceSum(points);
    }
  }

  lemma ShoelaceSumRotatedOnce(points: seq<Vector2>)
    requires 1 <= |points|
    ensures ShoelaceSum(points[1..] + [points[0]]) == ShoelaceSum(points)
  {
    if |points| >= 2 {
      var q := points[1..] + [points[0]];
      assert q[..|q| - 1] == points[1..];
      PathCrossCons(points[0], points[1..]);
      assert [points[0]] + points[1..] == points;
    }
  }

  lemma {:induction false} ShoelaceSumRotated(points: seq<Vector2>, k: nat)
    requires k <= |points|
    ensures ShoelaceSum(points[k..] + points[..k]) == ShoelaceSum(points)
  {
    if k == 0 {
      assert points[0..] + points[..0] == points;
    } else {
      ShoelaceSumRotated(points, k - 1);
      var r := points[k - 1..] + points[..k - 1];
      ShoelaceSumRotatedOnce(r);
      assert r[1..] + [r[0]] == points[k..] + points[..k];
    }
  }

  /** Starting the polygon at another vertex leaves the area unchanged. */
  lemma AreaRotated(points: seq<Vector2>, k: nat)
    requires k <= |points|
    ensures Area(points[k..] + points[..k]) == Area(points)
  {
    ShoelaceSumRotated(points, k);
  }

  // ---------------------------------------------------------------- validity

  /** At least three points enclosing more than `MinPolygonArea`. */
  predicate IsValidPolygon(points: seq<Vector2>) {
    if |points| < 3 then false else Area(points) > MinPolygonArea
  }

  /** A valid polygon has at least three vertices and encloses more than the minimum area. */
  lemma ValidPolygonEnclosesArea(points: seq<Vector2>)
    ensures IsValidPolygon(points) ==> 3 <= |points| && MinPolygonArea < Area(points)
    ensures 3 <= |points| && MinPolygonArea < Area(points) ==> IsValidPolygon(points)
    ensures IsValidPolygon(points) ==> 0.0 < Area(points)
  {
  }

  /** Validity does not depend on winding order or on the starting vertex. */
  lemma ValidityIgnoresOrientation(points: seq<Vector2>, k: nat)
    requires k <= |points|
    ensures IsValidPolygon(Reversed(points)) == IsValidPolygon(points)
    ensures IsValidPolygon(points[k..] + points[..k]) == IsValidPolygon(points)
  {
    AreaReversed(points);
    AreaRotated(points, k);
  }

  predicate OnLine(p: Vector2, a: real, b: real, c: real) {
    a * p.x + b * p.y == c
  }

  /** On the line `a·x + b·y = c`, one Shoelace term is fixed by the two points' coordinates. */
  lemma CrossOnLine(p: Vector2, q: Vector2, a: real, b: real, c: real)
    requires OnLine(p, a, b, c) && OnLine(q, a, b, c)
    ensures Mul(b, Cross(p, q)) == Mul(c, p.x) - Mul(c, q.x)
    ensures Mul(a, Cross(p, q)) == Mul(c, q.y) - Mul(c, p.y)
  {
    calc {
      b * Cross(p, q);
      p.x * (b * q.y) - q.x * (b * p.y);
      p.x * (c - a * q.x) - q.x * (c - a * p.x);
      c * p.x - c * q.x;
    }
    calc {
      a * Cross(p, q);
      (a * p.x) * q.y - (a * q.x) * p.y;
      (c - b * p.y) * q.y - (c - b * q.y) * p.y;
      c * q.y - c * p.y;
    }
  }

  /**
   * The Shoelace terms of points on the line `a·x + b·y = c` telescope:
   * scaled by `b` they come to `c` times the drop in `x` from first to last.
   */
  lemma {:induction false} PathCrossOnLine(points: seq<Vector2>, a: real, b: real, c: real)
    requires 1 <= |points|
    requires forall i :: 0 <= i < |points| ==> OnLine(points[i], a, b, c)
    ensures Mul(b, PathCross(points)) == Mul(c, points[0].x) - Mul(c, points[|points| - 1].x)
    decreases |points|
  {
    var first, final := points[0], points[|points| - 1];
    if |points| >= 2 {
      var init := points[..|points| - 1];
      var before := points[|points| - 2];
      PathCrossOnLine(init, a, b, c);
      CrossOnLine(before, final, a, b, c);
      assert init[0] == first && init[|init| - 1] == before;
      TelescopeStep(b, PathCross(points), PathCross(init), Cross(before, final),
                    Mul(c, first.x), Mul(c, before.x), Mul(c, final.x));
    } else {
      assert first == final;
      ZeroScaled(b, PathCross(points), Mul(c, first.x));
    }
  }

  /** Scaled by `a`, the same terms come to `c` times the rise in `y` from first to last. */
  lemma {:induction false} PathCrossOnLineRise(points: seq<Vector2>, a: real, b: real, c: real)
    requires 1 <= |points|
    requires forall i :: 0 <= i < |points| ==> OnLine(points[i], a, b, c)
    ensures Mul(a, PathCross(points)) == Mul(c, points[|points| - 1].y) - Mul(c, points[0].y)
    decreases |points|
  {
    var first, final := points[0], points[|points| - 1];
    if |points| >= 2 {
      var init := points[..|points| - 1];
      var before := points[|points| - 2];
      PathCrossOnLineRise(init, a, b, c);
      CrossOnLine(before, final, a, b, c);
      assert init[0] == first && init[|init| - 1] == before;
      TelescopeStep(a, PathCross(points), Cross(before, final), PathCross(init),
                    Mul(c, final.y), Mul(c, before.y), Mul(c, first.y));
    } else {
      assert first == final;
      ZeroScaled(a, PathCross(points), Mul(c, first.y));
    }
  }

  lemma ZeroScaled(k: real, total: real, u: real)
    requires total == 0.0
    ensures Mul(k, total) == u - u
  {
  }

  /** Two telescoping terms of `PathCrossOnLine`, scaled by the line's coefficient. */
  lemma TelescopeStep(k: real, total: real, rest: real, last: real, u: real, v: real, w: real)
    requires total == rest + last
    requires Mul(k, rest) == u - v && Mul(k, last) == v - w
    ensures Mul(k, total) == u - w
  {
  }

  /**
   * Points on one line (vertical or not) enclose no area, so they are never
   * a valid polygon.
   */
  lemma CollinearPointsAreInvalid(points: seq<Vector2>, a: real, b: real, c: real)
    requires a != 0.0 || b != 0.0
    requires forall i :: 0 <= i < |points| ==> OnLine(points[i], a, b, c)
    ensures Area(points) == 0.0
    ensures !IsValidPolygon(points)
  {
    if |points| >= 3 {
      var n := |points|;
      PathCrossOnLine(points, a, b, c);
      PathCrossOnLineRise(points, a, b, c);
      CrossOnLine(points[n - 1], points[0], a, b, c);
      var first, final := points[0], points[n - 1];
      var sum := ShoelaceSum(points);
      TelescopeStep(b, sum, PathCross(points), Cross(final, first), Mul(c, first.x), Mul(c, final.x), Mul(c, first.x));
      TelescopeStep(a, sum, Cross(final, first), PathCross(points), Mul(c, first.y), Mul(c, final.y), Mul(c, first.y));
      if b != 0.0 {
        ZeroProduct(b, sum);
      } else {
        ZeroProduct(a, sum);
      }
    }
  }

  lemma ZeroProduct(k: real, x: real)
    requires k != 0.0 && Mul(k, x) == 0.0
    ensures x == 0.0
  {
  }

  // ---------------------------------------------------------------- centroid, bounding box

  function Xs(points: seq<Vector2>): (xs: seq<real>)
    ensures |xs| == |points|
  {
    seq(|points|, i requires 0 <= i < |points| => points[i].x)
  }

  function Ys(points: seq<Vector2>): (ys: seq<real>)
    ensures |ys| == |points|
  {
    seq(|points|, i requires 0 <= i < |points| => points[i].y)
  }

  /** Kotlin's `minOf`: the least element, which occurs in the list. */
  function MinOf(xs: seq<real>): (m: real)
    requires xs != []
    ensures forall i :: 0 <= i < |xs| ==> m <= xs[i]
    ensures exists i :: 0 <= i < |xs| && xs[i] == m
  {
    if |xs| == 1 then xs[0]
    else
      var rest := MinOf(xs[..|xs| - 1]);
      if xs[|xs| - 1] < rest then xs[|xs| - 1] else rest
  }

  /** Kotlin's `maxOf`: the greatest element, which occurs in the list. */
  function MaxOf(xs: seq<real>): (m: real)
    requires xs != []
    ensures forall i :: 0 <= i < |xs| ==> xs[i] <= m
    ensures exists i :: 0 <= i < |xs| && xs[i] == m
  {
    if |xs| == 1 then xs[0]
    else
      var rest := MaxOf(xs[..|xs| - 1]);
      if xs[|xs| - 1] > rest then xs[|xs| - 1] else rest
  }

  datatype BoundingBox = BoundingBox(minX: real, minY: real, maxX: real, maxY: real) {

    function Width(): real { maxX - minX }

    function Height(): real { maxY - minY }

    function CenterX(): real { (minX + maxX) / 2.0 }

    function CenterY(): real { (minY + maxY) / 2.0 }

    predicate Contains(p: Vector2) {
      minX <= p.x <= maxX && minY <= p.y <= maxY
    }
  }

  /** `getBoundingBox`: the tightest box around the points; all zero for no points. */
  function GetBoundingBox(points: seq<Vector2>): (box: BoundingBox)
    ensures points == [] ==> box == BoundingBox(0.0, 0.0, 0.0, 0.0)
    ensures forall i :: 0 <= i < |points| ==> box.Contains(points[i])
    ensures points != [] ==> 0.0 <= box.Width() && 0.0 <= box.Height()
    ensures points != [] ==> exists i :: 0 <= i < |points| && points[i].x == box.minX
    ensures points != [] ==> exists i :: 0 <= i < |points| && points[i].x == box.maxX
    ensures points != [] ==> exists i :: 0 <= i < |points| && points[i].y == box.minY
    ensures points != [] ==> exists i :: 0 <= i < |points| && points[i].y == box.maxY
  {
    if points == [] then BoundingBox(0.0, 0.0, 0.0, 0.0)
    else
      var xs, ys := Xs(points), Ys(points);
      assert forall i :: 0 <= i < |points| ==> xs[i] == points[i].x && ys[i] == points[i].y;
      BoundingBox(MinOf(xs), MinOf(ys), MaxOf(xs), MaxOf(ys))
  }

  /** `getCentroid`: the mean of the coordinates; the origin for no points. */
  function GetCentroid(points: seq<Vector2>): (c: Vector2)
    ensures points == [] ==> c == Vector2(0.0, 0.0)
  {
    if points == [] then Vector2(0.0, 0.0) else Vector2(Mean(Xs(points)), Mean(Ys(points)))
  }

  /** The centroid of a non-empty point list lies inside its bounding box. */
  lemma CentroidInBoundingBox(points: seq<Vector2>)
    requires points != []
    ensures GetBoundingBox(points).Contains(GetCentroid(points))
  {
    var box := GetBoundingBox(points);
    var xs, ys := Xs(points), Ys(points);
    assert forall i :: 0 <= i < |points| ==> xs[i] == points[i].x && ys[i] == points[i].y;
    MeanBounds(xs, box.minX, box.maxX);
    MeanBounds(ys, box.minY, box.maxY);
  }

  // ---------------------------------------------------------------- rotation

  /**
   * `rotateToNorth` with the cosine and sine of the heading supplied by the
   * caller: the standard rotation matrix applied to every point.
   */
  function RotateToNorth(points: seq<Vector2>, cosVal: real, sinVal: real): (r: seq<Vector2>)
    ensures |r| == |points|
  {
    seq(|points|, i requires 0 <= i < |points| =>
      Vector2(points[i].x * cosVal - points[i].y * sinVal, points[i].x * sinVal + points[i].y * cosVal))
  }

  /** A heading offset of 0 degrees (cos 1, sin 0) leaves every point in place. */
  lemma RotationByZeroIsIdentity(points: seq<Vector2>)
    ensures RotateToNorth(points, 1.0, 0.0) == points
  {
  }

  lemma CrossRotated(a: Vector2, b: Vector2, c: real, s: real)
    requires c * c + s * s == 1.0
    ensures Cross(Vector2(a.x * c - a.y * s, a.x * s + a.y * c), Vector2(b.x * c - b.y * s, b.x * s + b.y * c))
         == Cross(a, b)
  {
    calc {
      (a.x * c - a.y * s) * (b.x * s + b.y * c) - (b.x * c - b.y * s) * (a.x * s + a.y * c);
      (c * c + s * s) * (a.x * b.y - b.x * a.y);
      a.x * b.y - b.x * a.y;
    }
  }

  lemma {:induction false} PathCrossRotated(points: seq<Vector2>, c: real, s: real)
    requires c * c + s * s == 1.0
    ensures PathCross(RotateToNorth(points, c, s)) == PathCross(points)
    decreases |points|
  {
    var n := |points|;
    if n >= 2 {
      PathCrossRotated(points[..n - 1], c, s);
      var r, r' := RotateToNorth(points, c, s), RotateToNorth(points[..n - 1], c, s);
      forall j | 0 <= j < n - 1
        ensures r[j] == r'[j]
      {
        assert points[..n - 1][j] == points[j];
      }
      assert r[..n - 1] == r';
      CrossRotated(points[n - 2], points[n - 1], c, s);
    }
  }

  /** Rotating the plan to north (by a true rotation) does not change its area. */
  lemma RotationPreservesArea(points: seq<Vector2>, c: real, s: real)
    requires c * c + s * s == 1.0
    ensures Area(RotateToNorth(points, c, s)) == Area(points)
  {
    var n := |points|;
    if n >= 3 {
      var r := RotateToNorth(points, c, s);
      PathCrossRotated(points, c, s);
      CrossRotated(points[n - 1], points[0], c, s);
      assert r[n - 1] == Vector2(points[n - 1].x * c - points[n - 1].y * s, points[n - 1].x * s + points[n - 1].y * c);
      assert r[0] == Vector2(points[0].x * c - points[0].y * s, points[0].x * s + points[0].y * c);
      assert ShoelaceSum(r) == ShoelaceSum(points);
    }
  }

  // ---------------------------------------------------------------- worked example

  /** An axis-aligned `w` by `h` room walked counter-clockwise from the origin. */
  function Rectangle(w: real, h: real): (room: seq<Vector2>)
    ensures |room| == 4
  {
    [Vector2(0.0, 0.0), Vector2(w, 0.0), Vector2(w, h), Vector2(0.0, h)]
  }

  /** The Shoelace sum of a quadrilateral, edge by edge. */
  lemma ShoelaceSumOfQuad(p0: Vector2, p1: Vector2, p2: Vector2, p3: Vector2)
    ensures ShoelaceSum([p0, p1, p2, p3]) == Cross(p0, p1) + Cross(p1, p2) + Cross(p2, p3) + Cross(p3, p0)
  {
    var q := [p0, p1, p2, p3];
    assert q[..3] == [p0, p1, p2];
    assert q[..3][..2] == q[..2] == [p0, p1];
    assert [p0, p1][..1] == [p0];
    assert PathCross([p0, p1]) == Cross(p0, p1);
    assert PathCross([p0, p1, p2]) == Cross(p0, p1) + Cross(p1, p2);
  }

  /** The closed perimeter of a quadrilateral, edge by edge. */
  lemma PerimeterOfQuad(sqrt: real -> real, p0: Vector2, p1: Vector2, p2: Vector2, p3: Vector2)
    requires IsSqrt(sqrt)
    ensures Perimeter(sqrt, [p0, p1, p2, p3], true)
         == Distance(sqrt, p0, p1) + Distance(sqrt, p1, p2) + Distance(sqrt, p2, p3) + Distance(sqrt, p3, p0)
  {
    var q := [p0, p1, p2, p3];
    assert q[..3] == [p0, p1, p2];
    assert q[..3][..2] == q[..2] == [p0, p1];
    assert [p0, p1][..1] == [p0];
    assert PathLength(sqrt, [p0, p1]) == Distance(sqrt, p0, p1);
    assert PathLength(sqrt, [p0, p1, p2]) == Distance(sqrt, p0, p1) + Distance(sqrt, p1, p2);
  }

  /** A `w` by `h` room has closed perimeter `2 (w + h)` and area `w h`. */
  lemma RectangleMeasures(sqrt: real -> real, w: real, h: real)
    requires IsSqrt(sqrt)
    requires 0.0 < w && 0.0 < h
    ensures Perimeter(sqrt, Rectangle(w, h), true) == 2.0 * (w + h)
    ensures Area(Rectangle(w, h)) == Mul(w, h)
  {
    var p0, p1, p2, p3 := Vector2(0.0, 0.0), Vector2(w, 0.0), Vector2(w, h), Vector2(0.0, h);
    assert Rectangle(w, h) == [p0, p1, p2, p3];
    assert SquaredDistance(p0, p1) == w * w && SquaredDistance(p2, p3) == w * w;
    assert SquaredDistance(p1, p2) == h * h && SquaredDistance(p3, p0) == h * h;
    PerimeterOfQuad(sqrt, p0, p1, p2, p3);
    DistanceIs(sqrt, p0, p1, w);
    DistanceIs(sqrt, p1, p2, h);
    DistanceIs(sqrt, p2, p3, w);
    DistanceIs(sqrt, p3, p0, h);
    ShoelaceSumOfQuad(p0, p1, p2, p3);
    assert Cross(p0, p1) == 0.0 && Cross(p3, p0) == 0.0;
    assert Cross(p1, p2) == w * h && Cross(p2, p3) == w * h;
    MulPositive(w, h);
    assert ShoelaceSum([p0, p1, p2, p3]) == 2.0 * Mul(w, h);
  }

  /** A 4 m by 3 m room: closed perimeter 14 m, area 12 square meters, a valid polygon. */
  lemma RectangleRoom(sqrt: real -> real)
    requires IsSqrt(sqrt)
    ensures Perimeter(sqrt, Rectangle(4.0, 3.0), true) == 14.0
    ensures Area(Rectangle(4.0, 3.0)) == 12.0
    ensures IsValidPolygon(Rectangle(4.0, 3.0))
  {
    RectangleMeasures(sqrt, 4.0, 3.0);
  }
}
