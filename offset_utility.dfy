/** `OffsetUtility`: offset a closed polygon either through the Clipper library or by
    displacing every vertex along a normal estimated from its two neighbours. */
module OffsetUtility {
  import opened Geometry
  import opened Results

  // ---------------------------------------------------------------------------
  // The per-vertex ("norms") strategy
  // ---------------------------------------------------------------------------

  /** Index of the cyclic predecessor of vertex `i` in a ring of `n` vertices. */
  function PrevIndex(i: nat, n: nat): (j: nat)
    requires i < n
    ensures j < n
  {
    if i - 1 < 0 then n - 1 else i - 1
  }

  /** Index of the cyclic successor of vertex `i` in a ring of `n` vertices. */
  function NextIndex(i: nat, n: nat): (j: nat)
    requires i < n
    ensures j < n
  {
    (i + 1) % n
  }

  /** Stepping forward and stepping back around the ring undo each other. */
  lemma {:induction false} PrevNextInverse(i: nat, n: nat)
    requires i < n
    ensures PrevIndex(NextIndex(i, n), n) == i
    ensures NextIndex(PrevIndex(i, n), n) == i
  {
    if i + 1 < n {
      assert (i + 1) % n == i + 1;
    } else {
      assert (i + 1) % n == 0 by { assert i + 1 == n; }
    }
    if i > 0 {
      assert i % n == i;
    }
  }

  /** The difference of the midpoints of the two edges at `self`: `self` cancels out and
      what is left is half the chord from `prev` to `next`. */
  function MidpointDelta(prev: Point, self: Point, next: Point): (d: Point)
    ensures d == Half(Sub(next, prev))
  {
    var midA := Midpoint(prev, self);
    var midB := Midpoint(self, next);
    Point(midB.x - midA.x, midB.y - midA.y)
  }

  /** `new Vector2(dy, -dx)` before normalisation: perpendicular to the chord from `prev`
      to `next`, and independent of `self`. */
  function EdgeNormal(prev: Point, self: Point, next: Point): (n: Point)
    ensures n == Point((next.y - prev.y) / 2.0, (prev.x - next.x) / 2.0)
  {
    var d := MidpointDelta(prev, self, next);
    Point(d.y, -d.x)
  }

  /** The estimated normal is perpendicular to the chord from `prev` to `next`. */
  lemma EdgeNormalPerpendicular(prev: Point, self: Point, next: Point)
    ensures Dot(EdgeNormal(prev, self, next), Sub(next, prev)) == 0.0
  {
  }

  /** Output vertex `i` of the norms strategy: input vertex `i` moved by `bufferDistance`
      along the normalised normal of its cyclic neighbours. */
  function OffsetVertex(points: seq<Point>, i: nat, bufferDistance: real, normalize: Normalizer): (q: Point)
    requires i < |points|
    ensures bufferDistance == 0.0 ==> q == points[i]
  {
    var n := |points|;
    var norm := normalize(EdgeNormal(points[PrevIndex(i, n)], points[i], points[NextIndex(i, n)]));
    Add(points[i], Mul(norm, bufferDistance))
  }

  /** The displacement of vertex `i` is `bufferDistance` times the normalised normal. */
  lemma OffsetVertexDisplacement(points: seq<Point>, i: nat, bufferDistance: real, normalize: Normalizer)
    requires i < |points|
    ensures var n := |points|;
      Sub(OffsetVertex(points, i, bufferDistance, normalize), points[i]) ==
      Mul(normalize(EdgeNormal(points[PrevIndex(i, n)], points[i], points[NextIndex(i, n)])), bufferDistance)
  {
  }

  /** What the norms strategy returns: one output vertex per input vertex, in order. */
  function NormsOffset(points: seq<Point>, bufferDistance: real, normalize: Normalizer): (r: seq<Point>)
    ensures |r| == |points|
    ensures forall i :: 0 <= i < |r| ==> r[i] == OffsetVertex(points, i, bufferDistance, normalize)
  {
    seq(|points|, i requires 0 <= i < |points| => OffsetVertex(points, i, bufferDistance, normalize))
  }

  /** With a zero distance the norms strategy returns its input unchanged. */
  lemma NormsOffsetZero(points: seq<Point>, normalize: Normalizer)
    ensures NormsOffset(points, 0.0, normalize) == points
  {
  }

  /** The loop of `OffsetWithNorms`: walk the ring once and append each displaced vertex
      to a fresh list. */
  method OffsetWithNorms(points: seq<Point>, bufferDistance: real, normalize: Normalizer)
    returns (offsetPoints: seq<Point>)
    ensures offsetPoints == NormsOffset(points, bufferDistance, normalize)
  {
    ghost var spec := NormsOffset(points, bufferDistance, normalize);
    offsetPoints := [];
    for i := 0 to |points|
      invariant offsetPoints == spec[..i]
    {
      var prev := points[if i - 1 < 0 then |points| - 1 else i - 1];
      var self := points[i];
      var next := points[(i + 1) % |points|];
      var midA := Midpoint(prev, self);
      var midB := Midpoint(self, next);
      var dx := midB.x - midA.x;
      var dy := midB.y - midA.y;
      var norm := normalize(Point(dy, -dx));
      var newPoint := Add(self, Mul(norm, bufferDistance));
      assert newPoint == OffsetVertex(points, i, bufferDistance, normalize) by {
        assert Point(dy, -dx) == EdgeNormal(prev, self, next);
        assert prev == points[PrevIndex(i, |points|)] && next == points[NextIndex(i, |points|)];
      }
      offsetPoints := offsetPoints + [newPoint];
    }
  }

  // ---------------------------------------------------------------------------
  // The Clipper strategy
  // ---------------------------------------------------------------------------

  /** The factor by which coordinates and the distance are scaled for Clipper. */
  const Scale: real := 100.0

  /** Clipper's integer point. */
  datatype IntPoint = IntPoint(X: int, Y: int)

  datatype JoinType = Square | Round | Miter
  datatype EndType = ClosedPolygon | ClosedLine | OpenButt | OpenSquare | OpenRound

  /** The conversion done by `new IntPoint(double, double)` for one coordinate. */
  type ToCInt = real -> int

  /** A `ClipperOffset` that is given one path with `AddPath(path, join, end)` and then run
      with `Execute(ref solution, delta)`: the contours it puts into `solution`. */
  type ClipperBackend = (seq<IntPoint>, JoinType, EndType, real) -> seq<seq<IntPoint>>

  /** `points.Select(p => new IntPoint(p.x * scale, p.y * scale))`. */
  function Upscale(points: seq<Point>, toCInt: ToCInt): (r: seq<IntPoint>)
    ensures |r| == |points|
    ensures forall i :: 0 <= i < |r| ==>
      r[i] == IntPoint(toCInt(points[i].x * Scale), toCInt(points[i].y * Scale))
  {
    if points == [] then []
    else [IntPoint(toCInt(points[0].x * Scale), toCInt(points[0].y * Scale))] + Upscale(points[1..], toCInt)
  }

  /** `path.Select(point => new Vector2(point.X / scale, point.Y / scale))`: scaling the
      result back up by `Scale` gives the integer coordinates. */
  function Downscale(path: seq<IntPoint>): (r: seq<Point>)
    ensures |r| == |path|
    ensures forall i :: 0 <= i < |r| ==>
      r[i].x * Scale == path[i].X as real && r[i].y * Scale == path[i].Y as real
  {
    if path == [] then []
    else [Point(path[0].X as real / Scale, path[0].Y as real / Scale)] + Downscale(path[1..])
  }

  /** Coordinates that survive the conversion to integers exactly. */
  predicate ExactlyScalable(points: seq<Point>, toCInt: ToCInt) {
    forall i :: 0 <= i < |points| ==>
      toCInt(points[i].x * Scale) as real == points[i].x * Scale &&
      toCInt(points[i].y * Scale) as real == points[i].y * Scale
  }

  /** Scaling down undoes scaling up whenever the conversion to integers loses nothing. */
  lemma DownscaleUpscale(points: seq<Point>, toCInt: ToCInt)
    requires ExactlyScalable(points, toCInt)
    ensures Downscale(Upscale(points, toCInt)) == points
  {
    var r := Downscale(Upscale(points, toCInt));
    forall i | 0 <= i < |points|
      ensures r[i] == points[i]
    {
      assert r[i].x * Scale == points[i].x * Scale;
      assert r[i].y * Scale == points[i].y * Scale;
    }
  }

  /** The contours Clipper returns for `points` offset by `bufferDistance`: the path is
      scaled up, joined with miters, treated as a closed line, and the distance is
      scaled by the same factor. */
  function ClipperSolution(points: seq<Point>, bufferDistance: real, toCInt: ToCInt, clipper: ClipperBackend)
    : seq<seq<IntPoint>>
  {
    clipper(Upscale(points, toCInt), Miter, ClosedLine, bufferDistance * Scale)
  }

  /** `OffsetWithClipper`: keep only the first contour of the solution and scale it back
      down; an empty solution is a failure. */
  function OffsetWithClipper(points: seq<Point>, bufferDistance: real, toCInt: ToCInt, clipper: ClipperBackend)
    : (r: Result<seq<Point>>)
    ensures var solution := ClipperSolution(points, bufferDistance, toCInt, clipper);
      && (r.Failure? <==> solution == [])
      && (r.Failure? ==> r.error == EmptySolution)
      && (r.Success? ==>
            && |r.value| == |solution[0]|
            && forall i :: 0 <= i < |r.value| ==>
                 r.value[i].x * Scale == solution[0][i].X as real &&
                 r.value[i].y * Scale == solution[0][i].Y as real)
  {
    var solution := ClipperSolution(points, bufferDistance, toCInt, clipper);
    if |solution| == 0 then Failure(EmptySolution)
    else Success(Downscale(solution[0]))
  }

  /** Contours after the first have no influence on the result. */
  lemma OnlyFirstContourMatters(points: seq<Point>, bufferDistance: real, toCInt: ToCInt,
                                clipper1: ClipperBackend, clipper2: ClipperBackend)
    requires ClipperSolution(points, bufferDistance, toCInt, clipper1) != []
    requires ClipperSolution(points, bufferDistance, toCInt, clipper2) != []
    requires ClipperSolution(points, bufferDistance, toCInt, clipper1)[0] ==
             ClipperSolution(points, bufferDistance, toCInt, clipper2)[0]
    ensures OffsetWithClipper(points, bufferDistance, toCInt, clipper1) ==
            OffsetWithClipper(points, bufferDistance, toCInt, clipper2)
  {
  }

  /** A backend whose first contour is the scaled input path hands back the input polygon,
      provided the scaling is exact: the two scalings cancel. */
  lemma {:induction false} ClipperScalingRoundTrip(points: seq<Point>, bufferDistance: real,
                                                   toCInt: ToCInt, clipper: ClipperBackend)
    requires ExactlyScalable(points, toCInt)
    requires ClipperSolution(points, bufferDistance, toCInt, clipper) != []
    requires ClipperSolution(points, bufferDistance, toCInt, clipper)[0] == Upscale(points, toCInt)
    ensures OffsetWithClipper(points, bufferDistance, toCInt, clipper) == Success(points)
  {
    DownscaleUpscale(points, toCInt);
  }

  // ---------------------------------------------------------------------------
  // The dispatch
  // ---------------------------------------------------------------------------

  /** `Offset`: the Clipper strategy when `useClipper` holds, the norms strategy
      otherwise (which never fails). */
  method Offset(points: seq<Point>, bufferDistance: real, useClipper: bool,
                normalize: Normalizer, toCInt: ToCInt, clipper: ClipperBackend)
    returns (r: Result<seq<Point>>)
    ensures useClipper ==> r == OffsetWithClipper(points, bufferDistance, toCInt, clipper)
    ensures !useClipper ==> r == Success(NormsOffset(points, bufferDistance, normalize))
  {
    if useClipper {
      return OffsetWithClipper(points, bufferDistance, toCInt, clipper);
    }
    var offsetPoints := OffsetWithNorms(points, bufferDistance, normalize);
    return Success(offsetPoints);
  }
}
