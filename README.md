# Offsetting and simplifying a closed polygon (flash-lay)

A Dafny model of the geometry core of a small Unity project that plots the outline of a
2D polygon collider and a buffer (offset) around it:

- `OffsetUtility.Offset` chooses between two offset strategies. `OffsetWithClipper` scales the
  polygon up by 100, hands it to the Clipper library as a closed line with miter joins
  and a distance scaled by 100, keeps only the first contour of the solution and scales
  it back down. `OffsetWithNorms` walks the ring once and moves every vertex by the buffer
  distance along the normalised perpendicular of the difference of the midpoints of its
  two incident edges.
- `Plotter.Simplify` closes the ring by appending a copy of its first vertex, runs
  Unity's open-polyline simplifier, and drops the last vertex of the result.
  `PlotPoints` plots the simplified collider outline; `PlotBuffer` pre-simplifies only on
  the non-Clipper path, offsets, simplifies again and plots the result.

Files: `geometry.dfy` (`Vector2` over the reals), `results.dfy` (the two failures),
`offset_utility.dfy` (`Assets/OffsetUtility.cs`), `plotter.dfy` (`Assets/Plotter.cs`).

Collaborators the code calls but does not contain are parameters of the members that use
them, with no properties assumed: `Vector2.normalized` (`Normalizer`), the integer
conversion inside `new IntPoint(double, double)` (`ToCInt`), `ClipperOffset.AddPath`
followed by `Execute` (`ClipperBackend`), and `LineUtility.Simplify` (`LineSimplifier`).
The exceptions the C# code throws on `points[0]` and `solution[0]` are the `Failure`
values `EmptyPolygon` and `EmptySolution`.

The C# code has no minimum of three vertices, no precision-overflow check and no simplifier of
its own. `OffsetWithNorms` on an empty list returns an empty list, the Clipper path does not fail
on an empty polygon unless Clipper's solution is empty, and `Simplify` fails only on an
empty polygon.

## Model

| member | source | states |
|---|---|---|
| OffsetUtility.PrevIndex | Assets/OffsetUtility.cs:80 | the predecessor index (`n - 1` for vertex 0, `i - 1` otherwise) is in `[0, n)` |
| OffsetUtility.NextIndex | Assets/OffsetUtility.cs:82 | the successor index `(i + 1) % n` is in `[0, n)` |
| OffsetUtility.PrevNextInverse | Assets/OffsetUtility.cs:80-82 | predecessor and successor undo each other in both orders, so they are the cyclic neighbours of `i` |
| Geometry.Midpoint | Assets/OffsetUtility.cs:84-85 | the midpoint is equally far (as a vector) from both ends |
| OffsetUtility.MidpointDelta | Assets/OffsetUtility.cs:84-88 | `midB - midA` equals `(next - prev) / 2`; the vertex itself cancels |
| OffsetUtility.EdgeNormal | Assets/OffsetUtility.cs:87-89 | the un-normalised normal `(dy, -dx)` is `((next.y - prev.y) / 2, (prev.x - next.x) / 2)` |
| OffsetUtility.EdgeNormalPerpendicular | Assets/OffsetUtility.cs:84-89 | the un-normalised normal has zero dot product with `next - prev` |
| OffsetUtility.OffsetVertex | Assets/OffsetUtility.cs:79-91 | with `bufferDistance = 0` output vertex `i` is input vertex `i` |
| OffsetUtility.OffsetVertexDisplacement | Assets/OffsetUtility.cs:89-91 | output vertex `i` minus input vertex `i` is `bufferDistance` times the normalised normal of the cyclic neighbours of `i` |
| OffsetUtility.NormsOffset | Assets/OffsetUtility.cs:76-94 | the norms result has as many vertices as the input and vertex `i` is computed from input vertex `i` and its neighbours |
| OffsetUtility.NormsOffsetZero | Assets/OffsetUtility.cs:91 | with `bufferDistance = 0` the norms result equals the input |
| OffsetUtility.OffsetWithNorms | Assets/OffsetUtility.cs:74-95 | the loop appending to a fresh list returns exactly `NormsOffset` of the input |
| OffsetUtility.Upscale | Assets/OffsetUtility.cs:42-47 | the path handed to Clipper has one integer point per vertex, each the conversion of the vertex coordinates times 100 |
| OffsetUtility.Downscale | Assets/OffsetUtility.cs:56-58 | the returned path has one point per contour point and each coordinate times 100 is the integer coordinate |
| OffsetUtility.DownscaleUpscale | Assets/OffsetUtility.cs:47-57 | scaling down undoes scaling up when the conversion to integers is exact |
| OffsetUtility.OffsetWithClipper | Assets/OffsetUtility.cs:38-59 | Clipper gets the scaled path, miter joins, a closed line and `bufferDistance * 100`; the result fails exactly when the solution is empty, and otherwise is the first contour divided by 100 |
| OffsetUtility.OnlyFirstContourMatters | Assets/OffsetUtility.cs:56 | two solutions with the same first contour give the same result; later contours are discarded |
| OffsetUtility.ClipperScalingRoundTrip | Assets/OffsetUtility.cs:42-58 | a backend whose first contour is the scaled input gives back the input polygon when the scaling is exact |
| OffsetUtility.Offset | Assets/OffsetUtility.cs:22-29 | with the flag set the result is `OffsetWithClipper`, otherwise the (never failing) norms result |
| Plotting.Sentinelled | Assets/Plotter.cs:143 | the sentinelled ring has `N + 1` vertices, its first `N` are the input and its last equals its first, `points[0]` |
| Plotting.Take | Assets/Plotter.cs:146 | `Take(count)` is a prefix of length `count` clamped to `[0, |s|]` |
| Plotting.Plotter.constructor | Assets/Plotter.cs:11-27 | the defaults are distance 40, tolerance 10, Clipper on, and no markers |
| Plotting.Plotter.Simplify | Assets/Plotter.cs:136-147 | fails exactly on an empty ring; otherwise the result is a prefix of the simplifier's output on the sentinelled ring with the field `Tolerance`, one vertex shorter (empty if the output is empty) |
| Plotting.Plotter.SimplifyIgnoresTolerance | Assets/Plotter.cs:136-145 | the result does not depend on the `tolerance` argument; `Simplify` reads only the field `Tolerance` of the plotter |
| Plotting.Plotter.SimplifyDropsSentinel | Assets/Plotter.cs:138-146 | if the simplifier keeps the endpoints, the dropped vertex is the copy of `points[0]` and the result starts with `points[0]` |
| Plotting.Plotter.SimplifyLengthBounds | Assets/Plotter.cs:143-146 | if the simplifier keeps the endpoints and adds no vertices, the result has between 1 and `N` vertices |
| Plotting.Plotter.BufferOutline | Assets/Plotter.cs:74-87 | the buffer outline fails on the Clipper path exactly when the solution or its first contour is empty, and on the norms path exactly when the collider is empty or the simplifier returns at most one vertex for the sentinelled collider (so the pre-simplified outline is empty) |
| Plotting.Plotter.ClipperPathSkipsPreSimplify | Assets/Plotter.cs:81-87 | with Clipper, the collider outline is offset unsimplified and the offset is then simplified |
| Plotting.Plotter.NormsPathPreSimplifies | Assets/Plotter.cs:81-87 | without Clipper, the outline is simplified, offset by the norms strategy and simplified again |
| Plotting.Plotter.Clear | Assets/Plotter.cs:52-57 | both marker lists are empty afterwards |
| Plotting.Plotter.PlotPoints | Assets/Plotter.cs:59-72 | the markers are exactly the simplified collider points, numbered from 1 in order; on failure the markers are left cleared; the buffer markers are untouched |
| Plotting.Plotter.PlotBuffer | Assets/Plotter.cs:74-94 | the buffer markers are exactly the vertices of `BufferOutline`, numbered from 1 in order; on failure they are left cleared; the collider markers are untouched |

## Left out

- Floating point: coordinates, the distance and the tolerance are reals, so single-precision rounding is not modelled.
- `Vector2.normalized`, the `IntPoint` conversion, `ClipperOffset` and `LineUtility.Simplify` are abstract parameters; their internals (square roots, rounding, miter geometry, the simplification algorithm) are not part of this model.
- The `ClipperOffset` object that `AddPath` fills and `Execute` runs, and the `solution` list it fills by reference, are folded into one function from the path, join type, end type and distance to the contours.
- Unity object lifecycle: `AddPoint`, `_Clear`, `Instantiate`/`DestroyImmediate`, the lazily created parent transforms and `Debug.Log`. A marker is modelled by its number and position; its name string ("Marker point N") is left as the number N.
- `Assets/Editor/PlotterEditor.cs`: inspector buttons only.
- Integer width: Clipper's `cInt` is a 64-bit integer, while `IntPoint` here holds unbounded integers; an out-of-range cast belongs to the abstract `ToCInt` conversion and Clipper's own range check to the abstract backend, so no behaviour of this code is lost.
- Mutation of the caller's list: the model works on sequence values, so that neither offset path changes `points` holds by construction rather than by a proof.
