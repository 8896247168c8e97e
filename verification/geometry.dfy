/** Points, poses, stamped headers and point clouds shared by the segmentation,
    cluster and perception models, together with the square-root-free
    comparisons that stand in for `sqrt` throughout. */
module Geometry {

  datatype Option<T> = None | Some(value: T)

  /** A point in 3-D space (a ROS geometry point or a PCL XYZ point). */
  datatype Point = Point(x: real, y: real, z: real)

  datatype Quaternion = Quaternion(x: real, y: real, z: real, w: real)

  datatype Pose = Pose(position: Point, orientation: Quaternion)

  datatype Time = Time(sec: int, nanosec: nat)

  datatype Header = Header(frameId: string, stamp: Time)

  datatype PoseStamped = PoseStamped(header: Header, pose: Pose)

  /** A point cloud: its frame tag and its points, in order. */
  datatype Cloud = Cloud(frameId: string, points: seq<Point>)

  /** The value a default-constructed stamped pose holds: no frame, zero stamp,
      the origin and the identity rotation. */
  function DefaultPoseStamped(): PoseStamped
  {
    PoseStamped(Header("", Time(0, 0)), Pose(Point(0.0, 0.0, 0.0), Quaternion(0.0, 0.0, 0.0, 1.0)))
  }

  /** Squared Euclidean distance in the x/y plane; z plays no part. */
  function PlanarDistSq(p: Point, q: Point): (d: real)
    ensures d >= 0.0
    ensures p.x == q.x && p.y == q.y ==> d == 0.0
  {
    var dx, dy := p.x - q.x, p.y - q.y;
    SquareNonNegative(dx);
    SquareNonNegative(dy);
    dx * dx + dy * dy
  }

  lemma SquareNonNegative(a: real)
    ensures a * a >= 0.0
  {
    if a > 0.0 {
      ProductPositive(a, a);
    } else if a < 0.0 {
      var b := -a;
      ProductPositive(b, b);
      assert b * b == a * a;
    }
  }

  lemma ProductPositive(a: real, b: real)
    requires a > 0.0 && b > 0.0
    ensures a * b > 0.0
  {
  }

  lemma PlanarDistSymmetric(p: Point, q: Point)
    ensures PlanarDistSq(p, q) == PlanarDistSq(q, p)
  {
    assert (p.x - q.x) * (p.x - q.x) == (q.x - p.x) * (q.x - p.x);
    assert (p.y - q.y) * (p.y - q.y) == (q.y - p.y) * (q.y - p.y);
  }

  // A distance is the square root of a squared distance. The four predicates
  // below decide how that root compares with a bound using the square alone;
  // RootComparisons proves them exact for every non-negative root.

  /** sqrt(sq) >= bound */
  predicate RootAtLeast(sq: real, bound: real) { bound <= 0.0 || sq >= bound * bound }

  /** sqrt(sq) <= bound */
  predicate RootAtMost(sq: real, bound: real) { bound >= 0.0 && sq <= bound * bound }

  /** sqrt(sq) > bound */
  predicate RootExceeds(sq: real, bound: real) { bound < 0.0 || sq > bound * bound }

  /** sqrt(sq) < bound */
  predicate RootBelow(sq: real, bound: real) { bound > 0.0 && sq < bound * bound }

  lemma RootComparisons(r: real, bound: real)
    requires r >= 0.0
    ensures RootAtLeast(r * r, bound) <==> r >= bound
    ensures RootAtMost(r * r, bound) <==> r <= bound
    ensures RootExceeds(r * r, bound) <==> r > bound
    ensures RootBelow(r * r, bound) <==> r < bound
  {
    if bound >= 0.0 {
      if r < bound {
        assert r * r <= r * bound;
        assert r * bound < bound * bound;
      } else if r > bound {
        assert r * r - bound * bound == (r - bound) * (r + bound);
        ProductPositive(r - bound, r + bound);
        assert r * r > bound * bound;
        assert !RootAtMost(r * r, bound);
      }
    }
  }

  function SumX(ps: seq<Point>): real
  {
    if |ps| == 0 then 0.0 else SumX(ps[..|ps| - 1]) + ps[|ps| - 1].x
  }

  function SumY(ps: seq<Point>): real
  {
    if |ps| == 0 then 0.0 else SumY(ps[..|ps| - 1]) + ps[|ps| - 1].y
  }

  /** The mean of the points' x and of their y; z of the result is 0. */
  function Centroid(ps: seq<Point>): Point
    requires |ps| > 0
  {
    Point(SumX(ps) / |ps| as real, SumY(ps) / |ps| as real, 0.0)
  }

  /** Every point shifted by (dx, dy) in the plane. */
  function Translate(ps: seq<Point>, dx: real, dy: real): (r: seq<Point>)
    ensures |r| == |ps|
    ensures forall i :: 0 <= i < |ps| ==> r[i] == Point(ps[i].x + dx, ps[i].y + dy, ps[i].z)
  {
    seq(|ps|, i requires 0 <= i < |ps| => Point(ps[i].x + dx, ps[i].y + dy, ps[i].z))
  }

  lemma {:induction false} SumXTranslate(ps: seq<Point>, dx: real, dy: real)
    ensures SumX(Translate(ps, dx, dy)) == SumX(ps) + |ps| as real * dx
  {
    if |ps| > 0 {
      var n := |ps| - 1;
      var t := Translate(ps, dx, dy);
      SumXTranslate(ps[..n], dx, dy);
      assert t[..n] == Translate(ps[..n], dx, dy);
      assert t[n].x == ps[n].x + dx;
      assert |ps| as real == n as real + 1.0;
      ScaleSucc(n as real, dx);
    }
  }

  lemma {:induction false} SumYTranslate(ps: seq<Point>, dx: real, dy: real)
    ensures SumY(Translate(ps, dx, dy)) == SumY(ps) + |ps| as real * dy
  {
    if |ps| > 0 {
      var n := |ps| - 1;
      var t := Translate(ps, dx, dy);
      SumYTranslate(ps[..n], dx, dy);
      assert t[..n] == Translate(ps[..n], dx, dy);
      assert t[n].y == ps[n].y + dy;
      assert |ps| as real == n as real + 1.0;
      ScaleSucc(n as real, dy);
    }
  }

  lemma ScaleSucc(k: real, d: real)
    ensures (k + 1.0) * d == k * d + d
  {
  }

  /** Dividing a sum shifted by a multiple of the divisor: s / n == a / n + d when s == a + n * d. */
  lemma DivideShifted(a: real, s: real, n: real, d: real)
    requires n > 0.0 && s == a + n * d
    ensures s / n == a / n + d
  {
    var q := a / n;
    assert q * n == a;
    assert s == (q + d) * n;
  }

  /** Shifting a cloud shifts its centroid by the same amount. */
  lemma CentroidTranslate(ps: seq<Point>, dx: real, dy: real)
    requires |ps| > 0
    ensures Centroid(Translate(ps, dx, dy)) == Point(Centroid(ps).x + dx, Centroid(ps).y + dy, 0.0)
  {
    SumXTranslate(ps, dx, dy);
    SumYTranslate(ps, dx, dy);
    var t := Translate(ps, dx, dy);
    var n := |ps| as real;
    DivideShifted(SumX(ps), SumX(t), n, dx);
    DivideShifted(SumY(ps), SumY(t), n, dy);
  }

  /** The centroid of a one-point cloud is that point's x and y. */
  lemma CentroidOfOne(p: Point)
    ensures Centroid([p]) == Point(p.x, p.y, 0.0)
  {
    assert [p][..0] == [];
    assert SumX([p]) == p.x && SumY([p]) == p.y;
  }
}
