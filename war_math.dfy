/** Front-line geometry of the war-room map (front-web/src/warMath.js):
    interpolation of a front between its start and advance paths, the ribbon
    ("band") around it, arc-length sampling, depth offsets, and the view
    models of fronts and divisions.

    Coordinates are exact reals. The EPSG:3857 projection and its inverse,
    `Math.hypot` and `Math.atan2` are foreign; they are fields of a `Crs`
    value passed to every operation, and the laws the model relies on are
    predicates (`HypotLaw`, `Atan2Law`, `UnprojectsProjection`,
    `ProjectsUnprojection`) that lemmas take as preconditions. */
module WarMath {
  import opened Common
  import opened WarRecords

  /** A projected (planar) point or vector `{ x, y }`. */
  datatype Point = Point(x: real, y: real)

  const Origin: Point := Point(0.0, 0.0)

  /** The foreign numeric services: `CRS.project`, `CRS.unproject`,
      `Math.hypot` and `Math.atan2` (arguments in that order). */
  datatype Crs = Crs(
    project: LatLng -> Point,
    unproject: Point -> LatLng,
    hypot: (real, real) -> real,
    atan2: (real, real) -> real)

  /** `Math.PI`, the double nearest to pi, written out exactly. */
  const Pi: real := 3.141592653589793

  /** `Math.hypot(dx, dy)` is non-negative and zero exactly when both
      arguments are zero. */
  ghost predicate HypotLaw(c: Crs) {
    forall dx: real, dy: real ::
      0.0 <= c.hypot(dx, dy) && (c.hypot(dx, dy) == 0.0 <==> dx == 0.0 && dy == 0.0)
  }

  /** `Math.atan2` returns an angle in [-pi, pi]. */
  ghost predicate Atan2Law(c: Crs) {
    forall y: real, x: real :: -Pi <= c.atan2(y, x) <= Pi
  }

  /** Unprojecting a projected point gives the point back. */
  ghost predicate UnprojectsProjection(c: Crs) {
    forall p: LatLng :: c.unproject(c.project(p)) == p
  }

  /** Projecting an unprojected point gives the point back. */
  ghost predicate ProjectsUnprojection(c: Crs) {
    forall q: Point :: c.project(c.unproject(q)) == q
  }

  // ---------------------------------------------------------------- bearing

  /** Truncation toward zero, as a JavaScript number division then `%` uses. */
  function Trunc(x: real): int {
    if x >= 0.0 then x.Floor else -((-x).Floor)
  }

  /** JavaScript's `a % b`: the remainder takes the sign of `a`. */
  function JsRemainder(a: real, b: real): real
    requires b != 0.0
  {
    a - b * (Trunc(a / b) as real)
  }

  /** `(atan2(dx, dy) * 180 / Math.PI + 360) % 360`. */
  function Bearing(c: Crs, dx: real, dy: real): real {
    JsRemainder(c.atan2(dx, dy) * 180.0 / Pi + 360.0, 360.0)
  }

  lemma BearingRange(c: Crs, dx: real, dy: real)
    requires Atan2Law(c)
    ensures 0.0 <= Bearing(c, dx, dy) < 360.0
  {
    var a := c.atan2(dx, dy) * 180.0 / Pi + 360.0;
    assert -Pi <= c.atan2(dx, dy) <= Pi;
    assert 180.0 <= a <= 540.0;
    var k := (a / 360.0).Floor;
    assert Trunc(a / 360.0) == k;
    assert (k as real) <= a / 360.0 < (k as real) + 1.0;
  }

  // ---------------------------------------------------------- interpolation

  /** `s[i]` in JavaScript: `undefined` outside the array. */
  function At(s: seq<Option<LatLng>>, i: int): Option<LatLng> {
    if 0 <= i < |s| then s[i] else None
  }

  /** A path whose entries are all present. */
  function Lift(path: seq<LatLng>): seq<Option<LatLng>> {
    seq(|path|, i requires 0 <= i < |path| => Some(path[i]))
  }

  /** The first loop of `ensurePathPair`: push the last entry until the
      length reaches `maxLength` (an empty array pushes `undefined`). */
  function PadStart(safeStart: seq<Option<LatLng>>, maxLength: nat): seq<Option<LatLng>>
    decreases maxLength - |safeStart|
  {
    if |safeStart| >= maxLength then safeStart
    else PadStart(safeStart + [At(safeStart, |safeStart| - 1)], maxLength)
  }

  /** The second loop of `ensurePathPair`: push
      `safeTarget[len - 1] ?? safeStart[len - 1]`. */
  function PadTarget(safeTarget: seq<Option<LatLng>>, safeStart: seq<Option<LatLng>>, maxLength: nat): seq<Option<LatLng>>
    decreases maxLength - |safeTarget|
  {
    if |safeTarget| >= maxLength then safeTarget
    else PadTarget(safeTarget + [At(safeTarget, |safeTarget| - 1).OrElse(At(safeStart, |safeTarget| - 1))], safeStart, maxLength)
  }

  /** Padding keeps the entries and repeats the last one. */
  lemma {:induction false} PadStartShape(s: seq<Option<LatLng>>, n: nat)
    ensures |PadStart(s, n)| == MaxNat(|s|, n)
    ensures forall i :: 0 <= i < |s| ==> PadStart(s, n)[i] == s[i]
    ensures forall i :: |s| <= i < |PadStart(s, n)| ==> PadStart(s, n)[i] == At(s, |s| - 1)
    decreases n - |s|
  {
    if |s| < n {
      var s' := s + [At(s, |s| - 1)];
      PadStartShape(s', n);
      assert At(s', |s'| - 1) == At(s, |s| - 1);
    }
  }

  lemma {:induction false} PadTargetLength(t: seq<Option<LatLng>>, s: seq<Option<LatLng>>, n: nat)
    ensures |PadTarget(t, s, n)| == MaxNat(|t|, n)
    decreases n - |t|
  {
    if |t| < n {
      PadTargetLength(t + [At(t, |t| - 1).OrElse(At(s, |t| - 1))], s, n);
    }
  }

  /** A target whose last entry is present is padded with that entry. */
  lemma {:induction false} PadTargetShape(t: seq<Option<LatLng>>, s: seq<Option<LatLng>>, n: nat)
    requires |t| > 0 && t[|t| - 1].Some?
    ensures |PadTarget(t, s, n)| == MaxNat(|t|, n)
    ensures forall i :: 0 <= i < |t| ==> PadTarget(t, s, n)[i] == t[i]
    ensures forall i :: |t| <= i < |PadTarget(t, s, n)| ==> PadTarget(t, s, n)[i] == t[|t| - 1]
    decreases n - |t|
  {
    if |t| < n {
      var t' := t + [At(t, |t| - 1).OrElse(At(s, |t| - 1))];
      PadTargetShape(t', s, n);
    }
  }

  /** An empty target is padded with `undefined` first, then with
      `safeStart[0]` (when that is present). */
  lemma PadTargetOfEmpty(s: seq<Option<LatLng>>, n: nat)
    requires n >= 1 && |s| >= 1 && s[0].Some?
    ensures |PadTarget([], s, n)| == n
    ensures PadTarget([], s, n)[0] == None
    ensures forall i :: 1 <= i < n ==> PadTarget([], s, n)[i] == s[0]
  {
    var empty: seq<Option<LatLng>> := [];
    assert empty + [At(empty, -1).OrElse(At(s, -1))] == [None];
    assert PadTarget([], s, n) == PadTarget([None], s, n);
    if n >= 2 {
      assert [None] + [At([None], 0).OrElse(At(s, 0))] == [None, s[0]];
      assert PadTarget([None], s, n) == PadTarget([None, s[0]], s, n);
      PadTargetShape([None, s[0]], s, n);
    }
  }

  /** `ensurePathPair(startPath, targetPath)` with its two `while … push`
      loops. */
  method EnsurePathPair(startPath: seq<LatLng>, targetPath: seq<LatLng>)
    returns (safeStart: seq<Option<LatLng>>, safeTarget: seq<Option<LatLng>>)
    ensures safeStart == PadStart(Lift(startPath), MaxNat(|startPath|, |targetPath|))
    ensures safeTarget == PadTarget(Lift(targetPath), safeStart, MaxNat(|startPath|, |targetPath|))
  {
    var maxLength := MaxNat(|startPath|, |targetPath|);
    safeStart := Lift(startPath);
    safeTarget := Lift(targetPath);
    while |safeStart| < maxLength
      invariant PadStart(safeStart, maxLength) == PadStart(Lift(startPath), maxLength)
      decreases maxLength - |safeStart|
    {
      safeStart := safeStart + [At(safeStart, |safeStart| - 1)];
    }
    while |safeTarget| < maxLength
      invariant PadTarget(safeTarget, safeStart, maxLength) == PadTarget(Lift(targetPath), safeStart, maxLength)
      decreases maxLength - |safeTarget|
    {
      safeTarget := safeTarget + [At(safeTarget, |safeTarget| - 1).OrElse(At(safeStart, |safeTarget| - 1))];
    }
  }

  /** `{ lat: a.lat + (b.lat - a.lat) * p, lng: … }`. */
  function Blend(a: LatLng, b: LatLng, p: real): LatLng {
    LatLng(a.lat + (b.lat - a.lat) * p, a.lng + (b.lng - a.lng) * p)
  }

  /** `interpolatePath(startPath, targetPath, progress)`. */
  function InterpolatePath(startPath: seq<LatLng>, targetPath: seq<LatLng>, progress: real): (r: seq<LatLng>)
    ensures |startPath| == 0 ==> r == []
    ensures |startPath| > 0 ==> |r| == MaxNat(|startPath|, |targetPath|)
  {
    if |startPath| == 0 then []
    else
      var maxLength := MaxNat(|startPath|, |targetPath|);
      var start := PadStart(Lift(startPath), maxLength);
      var target := PadTarget(Lift(targetPath), start, maxLength);
      var clampedProgress := Clamp01(progress);
      PadStartShape(Lift(startPath), maxLength);
      PadTargetLength(Lift(targetPath), start, maxLength);
      seq(maxLength, index requires 0 <= index < maxLength =>
        var startPoint := start[index].value;
        var targetPoint := target[index].GetOr(startPoint);
        Blend(startPoint, targetPoint, clampedProgress))
  }

  /** The entry of the padded start path at `index`. */
  function StartAt(startPath: seq<LatLng>, index: nat): LatLng
    requires |startPath| > 0
  {
    if index < |startPath| then startPath[index] else startPath[|startPath| - 1]
  }

  /** Every point of the result blends the padded start point with the
      target point at the same index: the target's own entry, else its last
      entry, else (for an empty target) `startPath[0]`, which at index 0 is
      the start point itself (the `undefined` pushed first falls back to
      it) and after it is what the padding pushed. */
  lemma InterpolatePathAt(startPath: seq<LatLng>, targetPath: seq<LatLng>, progress: real, index: nat)
    requires |startPath| > 0 && index < MaxNat(|startPath|, |targetPath|)
    ensures InterpolatePath(startPath, targetPath, progress)[index] ==
      Blend(StartAt(startPath, index),
            if index < |targetPath| then targetPath[index]
            else if |targetPath| > 0 then targetPath[|targetPath| - 1]
            else startPath[0],
            Clamp01(progress))
  {
    var maxLength := MaxNat(|startPath|, |targetPath|);
    var start := PadStart(Lift(startPath), maxLength);
    PadStartShape(Lift(startPath), maxLength);
    assert start[index] == Some(StartAt(startPath, index));
    if |targetPath| > 0 {
      PadTargetShape(Lift(targetPath), start, maxLength);
    } else {
      PadTargetOfEmpty(start, maxLength);
    }
  }

  /** Progress is clamped: anything at or below 0 acts as 0, anything at or
      above 1 acts as 1. */
  lemma InterpolateClampsProgress(startPath: seq<LatLng>, targetPath: seq<LatLng>, progress: real)
    ensures progress <= 0.0 ==> InterpolatePath(startPath, targetPath, progress) == InterpolatePath(startPath, targetPath, 0.0)
    ensures progress >= 1.0 ==> InterpolatePath(startPath, targetPath, progress) == InterpolatePath(startPath, targetPath, 1.0)
  {
  }

  /** At clamped progress 0 the result is the start path, its last point
      repeated up to the target's length. */
  lemma InterpolateAtZero(startPath: seq<LatLng>, targetPath: seq<LatLng>, progress: real)
    requires |startPath| > 0 && progress <= 0.0
    ensures forall i :: 0 <= i < MaxNat(|startPath|, |targetPath|) ==>
      InterpolatePath(startPath, targetPath, progress)[i] == StartAt(startPath, i)
  {
    forall i | 0 <= i < MaxNat(|startPath|, |targetPath|)
      ensures InterpolatePath(startPath, targetPath, progress)[i] == StartAt(startPath, i)
    {
      InterpolatePathAt(startPath, targetPath, progress, i);
    }
  }

  /** At clamped progress 1 a non-empty target is reached, padded by its own
      last point. */
  lemma InterpolateAtOne(startPath: seq<LatLng>, targetPath: seq<LatLng>, progress: real)
    requires |startPath| > 0 && |targetPath| > 0 && progress >= 1.0
    ensures forall i :: 0 <= i < MaxNat(|startPath|, |targetPath|) ==>
      InterpolatePath(startPath, targetPath, progress)[i] ==
        (if i < |targetPath| then targetPath[i] else targetPath[|targetPath| - 1])
  {
    forall i | 0 <= i < MaxNat(|startPath|, |targetPath|)
      ensures InterpolatePath(startPath, targetPath, progress)[i] ==
        (if i < |targetPath| then targetPath[i] else targetPath[|targetPath| - 1])
    {
      InterpolatePathAt(startPath, targetPath, progress, i);
    }
  }

  /** With an empty target, point 0 stays where it is and every later point
      moves toward `startPath[0]`. */
  lemma InterpolateEmptyTarget(startPath: seq<LatLng>, progress: real)
    requires |startPath| > 0
    ensures InterpolatePath(startPath, [], progress)[0] == startPath[0]
    ensures forall i :: 1 <= i < |startPath| ==>
      InterpolatePath(startPath, [], progress)[i] == Blend(startPath[i], startPath[0], Clamp01(progress))
  {
    InterpolatePathAt(startPath, [], progress, 0);
    forall i | 1 <= i < |startPath|
      ensures InterpolatePath(startPath, [], progress)[i] == Blend(startPath[i], startPath[0], Clamp01(progress))
    {
      InterpolatePathAt(startPath, [], progress, i);
    }
  }

  /** Paths of the same length blend pointwise. */
  lemma InterpolateSameLength(startPath: seq<LatLng>, targetPath: seq<LatLng>, progress: real)
    requires |startPath| == |targetPath| > 0
    ensures forall i :: 0 <= i < |startPath| ==>
      InterpolatePath(startPath, targetPath, progress)[i] == Blend(startPath[i], targetPath[i], Clamp01(progress))
  {
    forall i | 0 <= i < |startPath|
      ensures InterpolatePath(startPath, targetPath, progress)[i] == Blend(startPath[i], targetPath[i], Clamp01(progress))
    {
      InterpolatePathAt(startPath, targetPath, progress, i);
    }
  }

  // ------------------------------------------------------------------- band

  /** `(-dy / length, dx / length)`. */
  function LeftNormal(dx: real, dy: real, length: real): Point
    requires length != 0.0
  {
    Point(-dy / length, dx / length)
  }

  /** The left-hand unit normal `(-dy/len, dx/len)` of a segment, or nothing
      for a zero-length segment. */
  function SegmentNormal(c: Crs, current: Point, next: Point): Point {
    var dx := next.x - current.x;
    var dy := next.y - current.y;
    var length := c.hypot(dx, dy);
    if length == 0.0 then Origin else LeftNormal(dx, dy, length)
  }

  /** What the loop of `computeVertexOffsets` has added to vertex `k` after
      handling the segments before `index`. */
  function PartialNormal(c: Crs, pts: seq<Point>, index: nat, k: nat): Point
    requires k < |pts| && index < |pts|
  {
    var before := if 0 < k && k - 1 < index then SegmentNormal(c, pts[k - 1], pts[k]) else Origin;
    var after := if k < index then SegmentNormal(c, pts[k], pts[k + 1]) else Origin;
    Point(before.x + after.x, before.y + after.y)
  }

  /** Handling segment `index` adds its normal to its two end vertices and
      to no other. */
  lemma PartialNormalStep(c: Crs, pts: seq<Point>, index: nat, k: nat)
    requires k < |pts| && index + 1 < |pts|
    ensures var seg := SegmentNormal(c, pts[index], pts[index + 1]);
      var prev := PartialNormal(c, pts, index, k);
      PartialNormal(c, pts, index + 1, k) ==
        if k == index || k == index + 1 then Point(prev.x + seg.x, prev.y + seg.y) else prev
  {
  }

  /** The accumulated normal of vertex `k`: the sum of the normals of the
      segments it borders. */
  function AccumulatedNormal(c: Crs, pts: seq<Point>, k: nat): Point
    requires k < |pts|
  {
    PartialNormal(c, pts, |pts| - 1, k)
  }

  /** `(normal / |normal|) * halfWidth`, or zero for a zero normal. */
  function ScaledUnit(c: Crs, normal: Point, halfWidth: real): Point {
    var magnitude := c.hypot(normal.x, normal.y);
    if magnitude == 0.0 then Origin
    else Point((normal.x / magnitude) * halfWidth, (normal.y / magnitude) * halfWidth)
  }

  /** The offsets `computeVertexOffsets` returns. */
  function VertexOffsets(c: Crs, pts: seq<Point>, halfWidth: real): (r: seq<Point>)
    ensures |r| == |pts|
  {
    if |pts| < 2 then seq(|pts|, _ => Origin)
    else seq(|pts|, k requires 0 <= k < |pts| => ScaledUnit(c, AccumulatedNormal(c, pts, k), halfWidth))
  }

  /** `computeVertexOffsets(projectedPath, halfWidth)`, accumulating into an
      array of normals. */
  method ComputeVertexOffsets(c: Crs, projectedPath: seq<Point>, halfWidth: real) returns (offsets: seq<Point>)
    ensures offsets == VertexOffsets(c, projectedPath, halfWidth)
  {
    var n := |projectedPath|;
    if n < 2 {
      offsets := seq(n, _ => Origin);
      return;
    }
    var accumNormals := new Point[n](_ => Origin);
    for index := 0 to n - 1
      invariant forall k :: 0 <= k < n ==> accumNormals[k] == PartialNormal(c, projectedPath, index, k)
    {
      var current := projectedPath[index];
      var next := projectedPath[index + 1];
      var dx := next.x - current.x;
      var dy := next.y - current.y;
      var length := c.hypot(dx, dy);
      forall k | 0 <= k < n
        ensures PartialNormal(c, projectedPath, index + 1, k) ==
          if length != 0.0 && (k == index || k == index + 1)
          then Point(PartialNormal(c, projectedPath, index, k).x + -dy / length,
                     PartialNormal(c, projectedPath, index, k).y + dx / length)
          else PartialNormal(c, projectedPath, index, k)
      {
        PartialNormalStep(c, projectedPath, index, k);
      }
      if length == 0.0 {
        continue;
      }
      var nx := -dy / length;
      var ny := dx / length;
      accumNormals[index] := Point(accumNormals[index].x + nx, accumNormals[index].y + ny);
      accumNormals[index + 1] := Point(accumNormals[index + 1].x + nx, accumNormals[index + 1].y + ny);
    }
    offsets := seq(n, k requires 0 <= k < n reads accumNormals => ScaledUnit(c, accumNormals[k], halfWidth));
    assert forall k :: 0 <= k < n ==> offsets[k] == ScaledUnit(c, AccumulatedNormal(c, projectedPath, k), halfWidth);
  }

  /** `p + d` and `p - d` on planar points. */
  function Add(p: Point, d: Point): Point { Point(p.x + d.x, p.y + d.y) }
  function Sub(p: Point, d: Point): Point { Point(p.x - d.x, p.y - d.y) }

  /** `path.map(toPoint)`. */
  function Project(c: Crs, path: seq<LatLng>): (r: seq<Point>)
    ensures |r| == |path|
  {
    seq(|path|, i requires 0 <= i < |path| => c.project(path[i]))
  }

  /** `createFrontBand(path, widthMeters)`: `None` is the `null` result. */
  function CreateFrontBand(c: Crs, path: seq<LatLng>, widthMeters: real): (band: Option<seq<LatLng>>)
    ensures band.None? <==> |path| < 2
    ensures band.Some? ==> |band.value| == 2 * |path|
  {
    if |path| < 2 then None
    else
      var n := |path|;
      var projected := Project(c, path);
      var offsets := VertexOffsets(c, projected, widthMeters / 2.0);
      var upper := seq(n, i requires 0 <= i < n => c.unproject(Add(projected[i], offsets[i])));
      var lower := seq(n, i requires 0 <= i < n => c.unproject(Sub(projected[i], offsets[i])));
      Some(upper + seq(n, i requires 0 <= i < n => lower[n - 1 - i]))
  }

  /** The band lists the N upper points in path order, then the N lower
      points in reverse order. */
  lemma BandLayout(c: Crs, path: seq<LatLng>, widthMeters: real, i: nat)
    requires |path| >= 2 && i < |path|
    ensures CreateFrontBand(c, path, widthMeters).value[i] ==
      c.unproject(Add(c.project(path[i]), VertexOffsets(c, Project(c, path), widthMeters / 2.0)[i]))
    ensures CreateFrontBand(c, path, widthMeters).value[2 * |path| - 1 - i] ==
      c.unproject(Sub(c.project(path[i]), VertexOffsets(c, Project(c, path), widthMeters / 2.0)[i]))
  {
  }

  /** A zero-length segment adds nothing to its vertices. */
  lemma ZeroSegmentHasNoNormal(c: Crs, current: Point, next: Point)
    requires HypotLaw(c) && current == next
    ensures SegmentNormal(c, current, next) == Origin
  {
  }

  /** A vertex whose accumulated normal is zero gets a zero offset, and both
      of its band points are the vertex itself. */
  lemma BandPinchesAtZeroNormal(c: Crs, path: seq<LatLng>, widthMeters: real, i: nat)
    requires HypotLaw(c) && UnprojectsProjection(c)
    requires |path| >= 2 && i < |path|
    requires AccumulatedNormal(c, Project(c, path), i) == Origin
    ensures VertexOffsets(c, Project(c, path), widthMeters / 2.0)[i] == Origin
    ensures CreateFrontBand(c, path, widthMeters).value[i] == path[i]
    ensures CreateFrontBand(c, path, widthMeters).value[2 * |path| - 1 - i] == path[i]
  {
    var pts := Project(c, path);
    var normal := AccumulatedNormal(c, pts, i);
    assert c.hypot(normal.x, normal.y) == 0.0;
    assert ScaledUnit(c, normal, widthMeters / 2.0) == Origin;
    assert VertexOffsets(c, pts, widthMeters / 2.0)[i] == Origin;
    BandLayout(c, path, widthMeters, i);
    var q := c.project(path[i]);
    assert Add(q, Origin) == q && Sub(q, Origin) == q;
    assert c.unproject(q) == path[i];
  }

  // --------------------------------------------------------------- sampling

  /** A segment of positive length as `computePathSegments` records it. */
  datatype Segment = Segment(start: Point, end: Point, dx: real, dy: real, length: real, normal: Point)

  /** `{ segments, totalLength, projected }`. */
  datatype PathData = PathData(segments: seq<Segment>, totalLength: real, projected: seq<Point>)

  /** The segment from `pts[index]` to `pts[index + 1]`, or `None` when it has
      zero length (the loop's `continue`). */
  function SegmentAt(c: Crs, pts: seq<Point>, index: nat): Option<Segment>
    requires index + 1 < |pts|
  {
    var current := pts[index];
    var next := pts[index + 1];
    var dx := next.x - current.x;
    var dy := next.y - current.y;
    var length := c.hypot(dx, dy);
    if length == 0.0 then None
    else Some(Segment(current, next, dx, dy, length, LeftNormal(dx, dy, length)))
  }

  /** The segments pushed while handling the first `count` pairs. */
  function SegmentsUpTo(c: Crs, pts: seq<Point>, count: nat): seq<Segment>
    requires count == 0 || count < |pts|
  {
    if count == 0 then []
    else
      SegmentsUpTo(c, pts, count - 1) +
        match SegmentAt(c, pts, count - 1)
        case None => []
        case Some(s) => [s]
  }

  /** The running `totalLength`. */
  function SumLengths(segments: seq<Segment>): real {
    if |segments| == 0 then 0.0
    else SumLengths(segments[..|segments| - 1]) + segments[|segments| - 1].length
  }

  /** `computePathSegments(path)`: `None` is its `null`. */
  function PathSegments(c: Crs, path: seq<LatLng>): (r: Option<PathData>)
    ensures |path| < 2 ==> r.None?
    ensures r.Some? ==> |r.value.segments| > 0 && r.value.totalLength == SumLengths(r.value.segments)
  {
    if |path| < 2 then None
    else
      var projected := Project(c, path);
      var segments := SegmentsUpTo(c, projected, |projected| - 1);
      if |segments| == 0 then None
      else Some(PathData(segments, SumLengths(segments), projected))
  }

  /** `computePathSegments(path)` with its loop pushing segments and summing
      their lengths. */
  method ComputePathSegments(c: Crs, path: seq<LatLng>) returns (data: Option<PathData>)
    ensures data == PathSegments(c, path)
  {
    if |path| < 2 {
      return None;
    }
    var projected := Project(c, path);
    var segments: seq<Segment> := [];
    var totalLength := 0.0;
    for index := 0 to |projected| - 1
      invariant segments == SegmentsUpTo(c, projected, index)
      invariant totalLength == SumLengths(segments)
    {
      var current := projected[index];
      var next := projected[index + 1];
      var dx := next.x - current.x;
      var dy := next.y - current.y;
      var length := c.hypot(dx, dy);
      if length == 0.0 {
        continue;
      }
      var segment := Segment(current, next, dx, dy, length, LeftNormal(dx, dy, length));
      assert (segments + [segment])[..|segments + [segment]| - 1] == segments;
      segments := segments + [segment];
      totalLength := totalLength + length;
    }
    if |segments| == 0 {
      return None;
    }
    data := Some(PathData(segments, totalLength, projected));
  }

  /** Every recorded segment is a true segment of the projected path with
      non-zero length (positive under `HypotLaw`) and a unit normal. */
  ghost predicate SegmentOf(c: Crs, pts: seq<Point>, s: Segment) {
    && (exists j :: 0 <= j < |pts| - 1 && s.start == pts[j] && s.end == pts[j + 1])
    && s.dx == s.end.x - s.start.x && s.dy == s.end.y - s.start.y
    && s.length == c.hypot(s.dx, s.dy) && s.length != 0.0
    && s.normal == LeftNormal(s.dx, s.dy, s.length)
  }

  lemma {:induction false} SegmentsAreSegments(c: Crs, pts: seq<Point>, count: nat)
    requires count == 0 || count < |pts|
    ensures forall k :: 0 <= k < |SegmentsUpTo(c, pts, count)| ==> SegmentOf(c, pts, SegmentsUpTo(c, pts, count)[k])
  {
    if count > 0 {
      SegmentsAreSegments(c, pts, count - 1);
      var j := count - 1;
      match SegmentAt(c, pts, j)
      case None =>
      case Some(s) =>
        assert s.start == pts[j] && s.end == pts[j + 1];
    }
  }

  /** No segment is recorded exactly when every consecutive pair of projected
      points coincides. */
  lemma {:induction false} NoSegmentsIffAllZero(c: Crs, pts: seq<Point>, count: nat)
    requires HypotLaw(c)
    requires count == 0 || count < |pts|
    ensures |SegmentsUpTo(c, pts, count)| == 0 <==> forall j :: 0 <= j < count ==> pts[j] == pts[j + 1]
  {
    if count > 0 {
      NoSegmentsIffAllZero(c, pts, count - 1);
      var j := count - 1;
      var dx := pts[j + 1].x - pts[j].x;
      var dy := pts[j + 1].y - pts[j].y;
      assert pts[j] == pts[j + 1] <==> dx == 0.0 && dy == 0.0;
    }
  }

  /** `{ position, normal, bearing }`. */
  datatype Sample = Sample(position: LatLng, normal: Point, bearing: real)

  /** `start + (dx, dy) * ratio`. */
  function PointAlong(s: Segment, ratio: real): Point {
    Point(s.start.x + s.dx * ratio, s.start.y + s.dy * ratio)
  }

  /** Ratio 0 is the segment's start and ratio 1 its end. */
  lemma PointAlongEnds(s: Segment)
    requires s.dx == s.end.x - s.start.x && s.dy == s.end.y - s.start.y
    ensures PointAlong(s, 0.0) == s.start && PointAlong(s, 1.0) == s.end
  {
  }

  lemma RatioOfEqual(x: real, y: real)
    requires x == y && y != 0.0
    ensures x / y == 1.0
  {
  }

  lemma RatioOfZero(y: real)
    requires y != 0.0
    ensures 0.0 / y == 0.0
  {
  }

  /** The point at `remaining` along segment `s`. */
  function SampleInSegment(c: Crs, s: Segment, remaining: real): Sample
    requires s.length != 0.0
  {
    Sample(c.unproject(PointAlong(s, remaining / s.length)), s.normal, Bearing(c, s.dx, s.dy))
  }

  /** The end of the last segment, its normal and its bearing: the loop's
      fall-through. */
  function SampleAtLastEnd(c: Crs, segments: seq<Segment>): Sample
    requires |segments| > 0
  {
    var last := segments[|segments| - 1];
    Sample(c.unproject(last.end), last.normal, Bearing(c, last.dx, last.dy))
  }

  ghost predicate NonZeroLengths(segments: seq<Segment>) {
    forall k :: 0 <= k < |segments| ==> segments[k].length != 0.0
  }

  /** The walk of `getPointAlongPath` from segment `index` on. */
  function Walk(c: Crs, segments: seq<Segment>, index: nat, distanceTraversed: real, targetDistance: real): Sample
    requires 0 < |segments| && index <= |segments| && NonZeroLengths(segments)
    decreases |segments| - index
  {
    if index == |segments| then SampleAtLastEnd(c, segments)
    else if distanceTraversed + segments[index].length >= targetDistance then
      SampleInSegment(c, segments[index], targetDistance - distanceTraversed)
    else Walk(c, segments, index + 1, distanceTraversed + segments[index].length, targetDistance)
  }

  lemma PathSegmentsNonZero(c: Crs, path: seq<LatLng>)
    requires PathSegments(c, path).Some?
    ensures NonZeroLengths(PathSegments(c, path).value.segments)
  {
    PathSegmentsAreSegments(c, path);
  }

  /** Every segment `computePathSegments` records joins two consecutive
      projected points, with its difference, length and normal. */
  lemma PathSegmentsAreSegments(c: Crs, path: seq<LatLng>)
    requires PathSegments(c, path).Some?
    ensures forall k :: 0 <= k < |PathSegments(c, path).value.segments| ==>
      SegmentOf(c, Project(c, path), PathSegments(c, path).value.segments[k])
  {
    var projected := Project(c, path);
    assert PathSegments(c, path).value.segments == SegmentsUpTo(c, projected, |projected| - 1);
    SegmentsAreSegments(c, projected, |projected| - 1);
  }

  /** `totalLength * clampedFraction`. */
  function TargetDistance(totalLength: real, clampedFraction: real): real {
    totalLength * clampedFraction
  }

  /** `getPointAlongPath(path, fraction)`. */
  function PointAlongPath(c: Crs, path: seq<LatLng>, fraction: real): Sample {
    match PathSegments(c, path)
    case None => Sample(if |path| > 0 then path[0] else LatLng(0.0, 0.0), Origin, 0.0)
    case Some(data) =>
      PathSegmentsNonZero(c, path);
      Walk(c, data.segments, 0, 0.0, TargetDistance(data.totalLength, Clamp01(fraction)))
  }

  /** `getPointAlongPath(path, fraction)` with its loop over the segments. */
  method GetPointAlongPath(c: Crs, path: seq<LatLng>, fraction: real) returns (sample: Sample)
    ensures sample == PointAlongPath(c, path, fraction)
  {
    var data := ComputePathSegments(c, path);
    if data.None? {
      var point := if |path| > 0 then path[0] else LatLng(0.0, 0.0);
      return Sample(point, Origin, 0.0);
    }
    PathSegmentsNonZero(c, path);
    var segments := data.value.segments;
    var targetDistance := TargetDistance(data.value.totalLength, Clamp01(fraction));
    var distanceTraversed := 0.0;
    for index := 0 to |segments|
      invariant Walk(c, segments, index, distanceTraversed, targetDistance) == Walk(c, segments, 0, 0.0, targetDistance)
    {
      var segment := segments[index];
      if distanceTraversed + segment.length >= targetDistance {
        return SampleInSegment(c, segment, targetDistance - distanceTraversed);
      }
      distanceTraversed := distanceTraversed + segment.length;
    }
    var lastSegment := segments[|segments| - 1];
    sample := Sample(c.unproject(lastSegment.end), lastSegment.normal, Bearing(c, lastSegment.dx, lastSegment.dy));
  }

  /** Fractions outside [0, 1] act as the nearest end. */
  lemma SampleClampsFraction(c: Crs, path: seq<LatLng>, fraction: real)
    ensures PointAlongPath(c, path, fraction) == PointAlongPath(c, path, Clamp01(fraction))
  {
  }

  /** A path whose projected points all coincide (or that is shorter than 2)
      samples to its first point (or {0, 0}), a zero normal and bearing 0. */
  lemma SampleOfDegeneratePath(c: Crs, path: seq<LatLng>, fraction: real)
    requires HypotLaw(c)
    requires forall j :: 0 <= j < |path| - 1 ==> c.project(path[j]) == c.project(path[j + 1])
    ensures PointAlongPath(c, path, fraction) ==
      Sample(if |path| > 0 then path[0] else LatLng(0.0, 0.0), Origin, 0.0)
  {
    if |path| >= 2 {
      NoSegmentsIffAllZero(c, Project(c, path), |path| - 1);
    }
  }

  ghost predicate PositiveLengths(segments: seq<Segment>) {
    forall k :: 0 <= k < |segments| ==> segments[k].length > 0.0
  }

  /** Each segment's difference is its end minus its start. */
  ghost predicate Spans(segments: seq<Segment>) {
    forall k :: 0 <= k < |segments| ==>
      segments[k].dx == segments[k].end.x - segments[k].start.x && segments[k].dy == segments[k].end.y - segments[k].start.y
  }

  /** Under `HypotLaw` every recorded segment has positive length, and each
      spans from its start to its end. */
  lemma SegmentsPositive(c: Crs, path: seq<LatLng>)
    requires HypotLaw(c) && PathSegments(c, path).Some?
    ensures PositiveLengths(PathSegments(c, path).value.segments)
    ensures Spans(PathSegments(c, path).value.segments)
  {
    PathSegmentsAreSegments(c, path);
  }

  /** A proper prefix of positive lengths sums to less than the whole. */
  lemma {:induction false} ProperPrefixShorter(segments: seq<Segment>, j: nat)
    requires PositiveLengths(segments) && j < |segments|
    ensures SumLengths(segments[..j]) < SumLengths(segments)
    decreases |segments|
  {
    var n := |segments|;
    assert segments[..n][..n - 1] == segments[..n - 1];
    if j < n - 1 {
      ProperPrefixShorter(segments[..n - 1], j);
      assert segments[..n - 1][..j] == segments[..j];
    }
  }

  /** Walking with the exact total as the target ends at the last segment's
      end: the fall-through and the last in-segment sample agree. */
  lemma {:induction false} WalkToTotal(c: Crs, segments: seq<Segment>, index: nat)
    requires 0 < |segments| && index < |segments| && PositiveLengths(segments) && Spans(segments)
    ensures Walk(c, segments, index, SumLengths(segments[..index]), SumLengths(segments)) == SampleAtLastEnd(c, segments)
    decreases |segments| - index
  {
    var traversed := SumLengths(segments[..index]);
    assert segments[..index + 1][..index] == segments[..index];
    assert traversed + segments[index].length == SumLengths(segments[..index + 1]);
    if index + 1 < |segments| {
      ProperPrefixShorter(segments, index + 1);
      WalkToTotal(c, segments, index + 1);
    } else {
      assert segments[..index + 1] == segments;
      var s := segments[index];
      RatioOfEqual(SumLengths(segments) - traversed, s.length);
      PointAlongEnds(s);
    }
  }

  /** At fraction 1 (or more) the sample is the end of the last positive
      segment, with that segment's normal and bearing. */
  lemma SampleAtEnd(c: Crs, path: seq<LatLng>, fraction: real)
    requires HypotLaw(c) && PathSegments(c, path).Some? && fraction >= 1.0
    ensures PointAlongPath(c, path, fraction) == SampleAtLastEnd(c, PathSegments(c, path).value.segments)
  {
    var data := PathSegments(c, path).value;
    PathSegmentsNonZero(c, path);
    SegmentsPositive(c, path);
    assert PointAlongPath(c, path, fraction) == Walk(c, data.segments, 0, 0.0, TargetDistance(data.totalLength, 1.0));
    assert data.segments[..0] == [];
    WalkToTotal(c, data.segments, 0);
  }

  /** At fraction 0 (or less) the sample is the start of the first positive
      segment, with that segment's normal and bearing. */
  lemma SampleAtStart(c: Crs, path: seq<LatLng>, fraction: real)
    requires HypotLaw(c) && PathSegments(c, path).Some? && fraction <= 0.0
    ensures var first := PathSegments(c, path).value.segments[0];
      PointAlongPath(c, path, fraction) == Sample(c.unproject(first.start), first.normal, Bearing(c, first.dx, first.dy))
  {
    var data := PathSegments(c, path).value;
    PathSegmentsNonZero(c, path);
    SegmentsPositive(c, path);
    assert PointAlongPath(c, path, fraction) == Walk(c, data.segments, 0, 0.0, TargetDistance(data.totalLength, 0.0));
    var first := data.segments[0];
    RatioOfZero(first.length);
    PointAlongEnds(first);
  }

  /** When the first segment of the path has positive length, fraction 0
      samples `path[0]` exactly. */
  lemma SampleAtFirstPoint(c: Crs, path: seq<LatLng>, fraction: real)
    requires HypotLaw(c) && UnprojectsProjection(c)
    requires |path| >= 2 && c.project(path[0]) != c.project(path[1]) && fraction <= 0.0
    ensures PointAlongPath(c, path, fraction).position == path[0]
  {
    var pts := Project(c, path);
    var dx := pts[1].x - pts[0].x;
    var dy := pts[1].y - pts[0].y;
    FirstSegmentIsFirstPair(c, pts, |pts| - 1);
    SampleAtStart(c, path, fraction);
  }

  /** A positive first pair is the first recorded segment. */
  lemma {:induction false} FirstSegmentIsFirstPair(c: Crs, pts: seq<Point>, count: nat)
    requires 1 <= count < |pts| && SegmentAt(c, pts, 0).Some?
    ensures |SegmentsUpTo(c, pts, count)| > 0 && SegmentsUpTo(c, pts, count)[0].start == pts[0]
  {
    if count > 1 {
      FirstSegmentIsFirstPair(c, pts, count - 1);
    }
  }

  /** Every sample has a bearing in [0, 360). */
  lemma SampleBearingRange(c: Crs, path: seq<LatLng>, fraction: real)
    requires Atan2Law(c)
    ensures 0.0 <= PointAlongPath(c, path, fraction).bearing < 360.0
  {
    match PathSegments(c, path)
    case None =>
    case Some(data) =>
      PathSegmentsNonZero(c, path);
      WalkBearingRange(c, data.segments, 0, 0.0, TargetDistance(data.totalLength, Clamp01(fraction)));
  }

  lemma {:induction false} WalkBearingRange(c: Crs, segments: seq<Segment>, index: nat, traversed: real, target: real)
    requires Atan2Law(c)
    requires 0 < |segments| && index <= |segments| && NonZeroLengths(segments)
    ensures 0.0 <= Walk(c, segments, index, traversed, target).bearing < 360.0
    decreases |segments| - index
  {
    if index == |segments| {
      var last := segments[|segments| - 1];
      BearingRange(c, last.dx, last.dy);
    } else if traversed + segments[index].length >= target {
      BearingRange(c, segments[index].dx, segments[index].dy);
    } else {
      WalkBearingRange(c, segments, index + 1, traversed + segments[index].length, target);
    }
  }

  // ------------------------------------------------------------------ depth

  /** A vector scaled by a factor. */
  function Scale(v: Point, k: real): Point {
    Point(v.x * k, v.y * k)
  }

  /** `getPointWithDepth(path, fraction, depthMeters)`. */
  function PointWithDepth(c: Crs, path: seq<LatLng>, fraction: real, depthMeters: real): (r: Sample)
    ensures r.normal == PointAlongPath(c, path, fraction).normal
    ensures r.bearing == PointAlongPath(c, path, fraction).bearing
  {
    var base := PointAlongPath(c, path, fraction);
    Sample(c.unproject(Add(c.project(base.position), Scale(base.normal, depthMeters))), base.normal, base.bearing)
  }

  /** In projected space the result is the base point moved by exactly
      normal × depth. */
  lemma DepthMovesAlongNormal(c: Crs, path: seq<LatLng>, fraction: real, depthMeters: real)
    requires ProjectsUnprojection(c)
    ensures var base := PointAlongPath(c, path, fraction);
      c.project(PointWithDepth(c, path, fraction, depthMeters).position) ==
        Add(c.project(base.position), Scale(base.normal, depthMeters))
  {
    var base := PointAlongPath(c, path, fraction);
    var moved := Add(c.project(base.position), Scale(base.normal, depthMeters));
    assert PointWithDepth(c, path, fraction, depthMeters).position == c.unproject(moved);
    assert c.project(c.unproject(moved)) == moved;
  }

  /** Depth 0 with an exact inverse projection leaves the sampled point. */
  lemma DepthZeroKeepsSample(c: Crs, path: seq<LatLng>, fraction: real)
    requires UnprojectsProjection(c)
    ensures PointWithDepth(c, path, fraction, 0.0) == PointAlongPath(c, path, fraction)
  {
    var base := PointAlongPath(c, path, fraction);
    assert Scale(base.normal, 0.0) == Origin;
    assert Add(c.project(base.position), Origin) == c.project(base.position);
  }

  // ------------------------------------------------------------ view models

  /** `{ ...front, path, band, labelPosition, bearing }`. */
  datatype FrontGeometry = FrontGeometry(
    front: Front, path: seq<LatLng>, band: Option<seq<LatLng>>, labelPosition: LatLng, bearing: real)

  /** `buildFrontGeometry(front)`. */
  function BuildFrontGeometry(c: Crs, front: Front): (g: FrontGeometry)
    ensures g.front == front
    ensures |front.startPath| > 0 ==> |g.path| == MaxNat(|front.startPath|, |front.advancePath|)
    ensures g.band.Some? <==> |g.path| >= 2
    ensures g.band.Some? ==> |g.band.value| == 2 * |g.path|
  {
    var path := InterpolatePath(front.startPath, front.advancePath, front.progress);
    var band := CreateFrontBand(c, path, front.width);
    var midpoint := PointWithDepth(c, path, 0.5, 0.0);
    FrontGeometry(front, path, band, midpoint.position, midpoint.bearing)
  }

  /** The label sits at the arc-length midpoint of the current path. */
  lemma LabelAtMidpoint(c: Crs, front: Front)
    requires UnprojectsProjection(c)
    ensures var g := BuildFrontGeometry(c, front);
      g.labelPosition == PointAlongPath(c, g.path, 0.5).position &&
      g.bearing == PointAlongPath(c, g.path, 0.5).bearing
  {
    DepthZeroKeepsSample(c, InterpolatePath(front.startPath, front.advancePath, front.progress), 0.5);
  }

  /** `getFrontGeometries(fronts)`. */
  function GetFrontGeometries(c: Crs, fronts: seq<Front>): (r: seq<FrontGeometry>)
    ensures |r| == |fronts|
    ensures forall i :: 0 <= i < |fronts| ==> r[i].front == fronts[i]
  {
    seq(|fronts|, i requires 0 <= i < |fronts| => BuildFrontGeometry(c, fronts[i]))
  }

  /** `fronts.find((entry) => entry.id === frontId)`. */
  function FindFront(fronts: seq<FrontGeometry>, frontId: string): (r: Option<FrontGeometry>)
    ensures r.None? <==> forall i :: 0 <= i < |fronts| ==> fronts[i].front.id != frontId
    ensures r.Some? ==> exists i :: 0 <= i < |fronts| && fronts[i] == r.value && r.value.front.id == frontId &&
                                    (forall j :: 0 <= j < i ==> fronts[j].front.id != frontId)
  {
    if |fronts| == 0 then None
    else if fronts[0].front.id == frontId then Some(fronts[0])
    else
      var r := FindFront(fronts[1..], frontId);
      assert forall i :: 1 <= i < |fronts| ==> fronts[i] == fronts[1..][i - 1];
      r
  }

  /** `{ ...division, displayPosition, bearing }`. */
  datatype DivisionView = DivisionView(division: Division, displayPosition: LatLng, bearing: real)

  const DefaultAnchor: real := 0.5
  const DefaultDepth: real := -4000.0

  /** `deriveDivisionPosition(division, fronts)`. */
  function DeriveDivisionPosition(c: Crs, division: Division, fronts: seq<FrontGeometry>): (r: DivisionView)
    ensures r.division == division
  {
    if division.assignment.None? then DivisionView(division, division.position, 0.0)
    else
      var assignment := division.assignment.value;
      match FindFront(fronts, assignment.frontId)
      case None => DivisionView(division, division.position, 0.0)
      case Some(front) =>
        if |front.path| < 2 then DivisionView(division, division.position, 0.0)
        else
          var point := PointWithDepth(c, front.path, assignment.anchor.GetOr(DefaultAnchor), assignment.depth.GetOr(DefaultDepth));
          DivisionView(division, point.position, point.bearing)
  }

  /** A division without an assignment keeps its static position with
      bearing 0. */
  lemma UnassignedDivisionStays(c: Crs, division: Division, fronts: seq<FrontGeometry>)
    requires division.assignment.None?
    ensures DeriveDivisionPosition(c, division, fronts) == DivisionView(division, division.position, 0.0)
  {
  }

  /** A division assigned to a front id that no front carries keeps its
      static position with bearing 0. */
  lemma DivisionWithoutFrontStays(c: Crs, division: Division, fronts: seq<FrontGeometry>)
    requires division.assignment.Some?
    requires forall i :: 0 <= i < |fronts| ==> fronts[i].front.id != division.assignment.value.frontId
    ensures DeriveDivisionPosition(c, division, fronts) == DivisionView(division, division.position, 0.0)
  {
  }

  /** A division assigned to front `fronts[i]`, the first with that id, stays
      put when that front's path has fewer than 2 points, and otherwise sits
      at its anchor (default 0.5) and depth (default -4000) along that
      path. */
  lemma DivisionOnFront(c: Crs, division: Division, fronts: seq<FrontGeometry>, i: nat)
    requires division.assignment.Some? && i < |fronts|
    requires fronts[i].front.id == division.assignment.value.frontId
    requires forall j :: 0 <= j < i ==> fronts[j].front.id != division.assignment.value.frontId
    ensures var r := DeriveDivisionPosition(c, division, fronts);
      var a := division.assignment.value;
      if |fronts[i].path| < 2 then r == DivisionView(division, division.position, 0.0)
      else
        var p := PointWithDepth(c, fronts[i].path, a.anchor.GetOr(0.5), a.depth.GetOr(-4000.0));
        r == DivisionView(division, p.position, p.bearing)
  {
    var id := division.assignment.value.frontId;
    var found := FindFront(fronts, id);
    var k :| 0 <= k < |fronts| && fronts[k] == found.value && found.value.front.id == id &&
      (forall j :: 0 <= j < k ==> fronts[j].front.id != id);
    assert k == i;
  }

  /** `getDivisionViewModels(divisions, fronts)`. */
  function GetDivisionViewModels(c: Crs, divisions: seq<Division>, fronts: seq<FrontGeometry>): (r: seq<DivisionView>)
    ensures |r| == |divisions|
    ensures forall i :: 0 <= i < |divisions| ==> r[i].division == divisions[i]
  {
    seq(|divisions|, i requires 0 <= i < |divisions| => DeriveDivisionPosition(c, divisions[i], fronts))
  }
}
