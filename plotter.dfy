/** `Plotter`: simplifies the collider outline and its buffer and records one marker per
    resulting vertex. */
module Plotting {
  import opened Geometry
  import opened Results
  import opened OffsetUtility

  /** `LineUtility.Simplify(points, tolerance, output)`: Unity's open-polyline simplifier,
      modelled as the list it fills in; nothing is assumed about it. */
  type LineSimplifier = (seq<Point>, real) -> seq<Point>

  /** An instantiated marker: the number in its name ("Marker point N", "Buffer point N")
      and its position. */
  datatype Marker = Marker(number: nat, position: Point)

  /** `markers` holds one marker per position, numbered from 1, in order. */
  predicate Plots(markers: seq<Marker>, positions: seq<Point>) {
    |markers| == |positions| &&
    forall i :: 0 <= i < |markers| ==> markers[i] == Marker(i + 1, positions[i])
  }

  /** `points.Concat(new[] { points[0] })`: the closed ring with its first vertex repeated
      at the end, so that the closing edge is an ordinary segment. */
  function Sentinelled(points: seq<Point>): (r: seq<Point>)
    requires points != []
    ensures |r| == |points| + 1
    ensures r[..|points|] == points
    ensures r[|points|] == r[0] == points[0]
  {
    points + [points[0]]
  }

  /** LINQ `Take(count)`: the longest prefix of `s` with at most `count` elements (none
      when `count` is not positive). */
  function Take<T>(s: seq<T>, count: int): (r: seq<T>)
    ensures r <= s
    ensures |r| == if count <= 0 then 0 else if count < |s| then count else |s|
  {
    if count <= 0 then [] else if count < |s| then s[..count] else s
  }

  /** What an endpoint-keeping open-polyline simplifier delivers: at least the two
      endpoints of its input, first and last. */
  predicate KeepsEndpoints(input: seq<Point>, output: seq<Point>) {
    |input| >= 1 && |output| >= 2 &&
    output[0] == input[0] && output[|output| - 1] == input[|input| - 1]
  }

  class Plotter {
    var BufferDistance: real
    /** The tolerance handed to `LineUtility.Simplify`. */
    var Tolerance: real
    var UseClipperForBufferPoints: bool
    /** `Collider.points`, the outline of the host shape. */
    var colliderPoints: seq<Point>
    var markerPoints: seq<Marker>
    var bufferPoints: seq<Marker>

    /** The field initialisers, for a collider with outline `collider`. */
    constructor (collider: seq<Point>)
      ensures BufferDistance == 40.0 && Tolerance == 10.0 && UseClipperForBufferPoints
      ensures colliderPoints == collider && markerPoints == [] && bufferPoints == []
    {
      BufferDistance := 40.0;
      Tolerance := 10.0;
      UseClipperForBufferPoints := true;
      colliderPoints := collider;
      markerPoints := [];
      bufferPoints := [];
    }

    /** `Simplify(points, tolerance)`: simplify the sentinelled ring with the field
        `Tolerance` (the parameter is unused) and drop the last vertex of the result.
        Fails on an empty ring, which has no `points[0]`. */
    function Simplify(points: seq<Point>, tolerance: real, lineSimplify: LineSimplifier)
      : (r: Result<seq<Point>>)
      reads this`Tolerance
      ensures r.Failure? <==> points == []
      ensures r.Failure? ==> r.error == EmptyPolygon
      ensures points != [] ==>
        var simplified := lineSimplify(Sentinelled(points), Tolerance);
        && r.value <= simplified
        && |r.value| == if simplified == [] then 0 else |simplified| - 1
    {
      if points == [] then Failure(EmptyPolygon)
      else
        var sentinelled := Sentinelled(points);
        var simplifiedPoints := lineSimplify(sentinelled, Tolerance);
        Success(Take(simplifiedPoints, |simplifiedPoints| - 1))
    }

    /** The `tolerance` argument never reaches the simplifier. */
    lemma SimplifyIgnoresTolerance(points: seq<Point>, tolerance1: real, tolerance2: real,
                                   lineSimplify: LineSimplifier)
      ensures Simplify(points, tolerance1, lineSimplify) == Simplify(points, tolerance2, lineSimplify)
    {
    }

    /** If the simplifier keeps the endpoints of the open polyline, the vertex dropped at
        the end is the appended copy of `points[0]`, and the result starts at `points[0]`. */
    lemma SimplifyDropsSentinel(points: seq<Point>, tolerance: real,
                                                   lineSimplify: LineSimplifier)
      requires points != []
      requires KeepsEndpoints(Sentinelled(points), lineSimplify(Sentinelled(points), Tolerance))
      ensures var simplified := lineSimplify(Sentinelled(points), Tolerance);
        && Simplify(points, tolerance, lineSimplify) == Success(simplified[..|simplified| - 1])
        && simplified[|simplified| - 1] == points[0]
        && Simplify(points, tolerance, lineSimplify).value != []
        && Simplify(points, tolerance, lineSimplify).value[0] == points[0]
    {
    }

    /** If in addition the simplifier never adds vertices, the result has between 1 and
        `|points|` vertices. */
    lemma SimplifyLengthBounds(points: seq<Point>, tolerance: real,
                                                  lineSimplify: LineSimplifier)
      requires points != []
      requires KeepsEndpoints(Sentinelled(points), lineSimplify(Sentinelled(points), Tolerance))
      requires |lineSimplify(Sentinelled(points), Tolerance)| <= |Sentinelled(points)|
      ensures 1 <= |Simplify(points, tolerance, lineSimplify).value| <= |points|
    {
    }

    /** The outline `PlotBuffer` plots: pre-simplify only on the norms path, offset with
        the flag and `BufferDistance`, then simplify the offset outline. */
    function BufferOutline(lineSimplify: LineSimplifier, normalize: Normalizer,
                           toCInt: ToCInt, clipper: ClipperBackend): (r: Result<seq<Point>>)
      reads this`UseClipperForBufferPoints, this`colliderPoints, this`BufferDistance, this`Tolerance
      ensures UseClipperForBufferPoints ==>
        var solution := ClipperSolution(colliderPoints, BufferDistance, toCInt, clipper);
        (r.Failure? <==> solution == [] || solution[0] == [])
      ensures !UseClipperForBufferPoints ==>
        (r.Failure? <==> colliderPoints == [] ||
                         |lineSimplify(Sentinelled(colliderPoints), Tolerance)| <= 1)
    {
      var candidatePoints :- if UseClipperForBufferPoints then Success(colliderPoints)
                             else Simplify(colliderPoints, Tolerance, lineSimplify);
      var offsetPoints :- if UseClipperForBufferPoints
                          then OffsetWithClipper(candidatePoints, BufferDistance, toCInt, clipper)
                          else Success(NormsOffset(candidatePoints, BufferDistance, normalize));
      Simplify(offsetPoints, Tolerance, lineSimplify)
    }

    /** On the Clipper path the collider outline goes to Clipper as it is. */
    lemma ClipperPathSkipsPreSimplify(lineSimplify: LineSimplifier, normalize: Normalizer,
                                      toCInt: ToCInt, clipper: ClipperBackend)
      requires UseClipperForBufferPoints
      ensures BufferOutline(lineSimplify, normalize, toCInt, clipper) ==
        match OffsetWithClipper(colliderPoints, BufferDistance, toCInt, clipper)
        case Failure(e) => Failure(e)
        case Success(offsetPoints) => Simplify(offsetPoints, Tolerance, lineSimplify)
    {
    }

    /** On the norms path the outline is simplified, offset, and simplified again. */
    lemma NormsPathPreSimplifies(lineSimplify: LineSimplifier, normalize: Normalizer,
                                 toCInt: ToCInt, clipper: ClipperBackend)
      requires !UseClipperForBufferPoints
      requires colliderPoints != []
      ensures BufferOutline(lineSimplify, normalize, toCInt, clipper) ==
        Simplify(NormsOffset(Simplify(colliderPoints, Tolerance, lineSimplify).value,
                             BufferDistance, normalize), Tolerance, lineSimplify)
    {
    }

    /** `Clear`: forget every marker. */
    method Clear()
      modifies this`markerPoints, this`bufferPoints
      ensures markerPoints == [] && bufferPoints == []
    {
      markerPoints := [];
      bufferPoints := [];
    }

    /** `PlotPoints`: clear the markers, then add one per vertex of the simplified
        collider outline, in order. On failure the markers stay cleared. */
    method PlotPoints(lineSimplify: LineSimplifier) returns (plotted: Result<seq<Point>>)
      modifies this`markerPoints
      ensures plotted == Simplify(colliderPoints, Tolerance, lineSimplify)
      ensures plotted.Success? ==> Plots(markerPoints, plotted.value)
      ensures plotted.Failure? ==> markerPoints == []
    {
      markerPoints := [];
      plotted := Simplify(colliderPoints, Tolerance, lineSimplify);
      if plotted.Failure? {
        return;
      }
      var simplifiedPoints := plotted.value;
      for i := 0 to |simplifiedPoints|
        invariant Plots(markerPoints, simplifiedPoints[..i])
      {
        markerPoints := markerPoints + [Marker(i + 1, simplifiedPoints[i])];
      }
      assert simplifiedPoints[..|simplifiedPoints|] == simplifiedPoints;
    }

    /** `PlotBuffer`: clear the buffer markers, then add one per vertex of
        `BufferOutline`, in order. On failure the buffer markers stay cleared. */
    method PlotBuffer(lineSimplify: LineSimplifier, normalize: Normalizer,
                      toCInt: ToCInt, clipper: ClipperBackend) returns (plotted: Result<seq<Point>>)
      modifies this`bufferPoints
      ensures plotted == BufferOutline(lineSimplify, normalize, toCInt, clipper)
      ensures plotted.Success? ==> Plots(bufferPoints, plotted.value)
      ensures plotted.Failure? ==> bufferPoints == []
    {
      bufferPoints := [];
      var candidatePoints := if UseClipperForBufferPoints then Success(colliderPoints)
                             else Simplify(colliderPoints, Tolerance, lineSimplify);
      if candidatePoints.Failure? {
        return Failure(candidatePoints.error);
      }
      var offsetPoints := Offset(candidatePoints.value, BufferDistance, UseClipperForBufferPoints,
                                 normalize, toCInt, clipper);
      assert BufferOutline(lineSimplify, normalize, toCInt, clipper) ==
        if offsetPoints.Failure? then Failure(offsetPoints.error)
        else Simplify(offsetPoints.value, Tolerance, lineSimplify)
      by {
        if UseClipperForBufferPoints {
          ClipperPathSkipsPreSimplify(lineSimplify, normalize, toCInt, clipper);
        } else {
          NormsPathPreSimplifies(lineSimplify, normalize, toCInt, clipper);
        }
      }
      if offsetPoints.Failure? {
        return Failure(offsetPoints.error);
      }
      plotted := Simplify(offsetPoints.value, Tolerance, lineSimplify);
      if plotted.Failure? {
        return;
      }
      var simplifiedPoints := plotted.value;
      for i := 0 to |simplifiedPoints|
        invariant Plots(bufferPoints, simplifiedPoints[..i])
      {
        bufferPoints := bufferPoints + [Marker(i + 1, simplifiedPoints[i])];
      }
      assert simplifiedPoints[..|simplifiedPoints|] == simplifiedPoints;
    }
  }
}
