/**
 * The rules of the floor-map capture engine as functions of the capture state:
 * admitting a tracked position into the walked path, the loop-closing test,
 * finalizing the corners into pins with perimeter and area, path smoothing,
 * relocalization offsets and the feature-list edits. The view model in
 * `FloorMapViewModel` applies them to its state; the lemmas here state what
 * they guarantee.
 */
module CaptureRules {
  import opened Optional
  import opened RealMath
  import opened Text
  import opened FloorPlanModels
  import PC = PolygonCalculator

  /** Minimum step, in metres, between two samples of the walked path. */
  const MinDistanceBetweenPoints: real := 0.15

  /** Distance, in metres, under which the user counts as back at the start. */
  const CloseToStartThreshold: real := 0.5

  /** Distance, in metres, that must have been walked before the loop may be closed. */
  const MinTravelToClose: real := 2.0

  /** Label given to an anchor when none is pending. */
  const FallbackAnchorLabel: string := "Anchor"

  /** Label an anchor placement starts with unless the caller names one. */
  const DefaultAnchorLabel: string := "Doorway"

  // ---------------------------------------------------------------- distance

  /** The view model's own `distance`, which subtracts in the other order; it agrees with the geometry kernel. */
  function Distance(sqrt: real -> real, a: Vector2, b: Vector2): (d: real)
    requires IsSqrt(sqrt)
    ensures d == PC.Distance(sqrt, a, b)
    ensures d == PC.Distance(sqrt, b, a)
  {
    assert Square(a.x - b.x) == Square(b.x - a.x) && Square(a.y - b.y) == Square(b.y - a.y);
    PC.DistanceSymmetric(sqrt, a, b);
    sqrt(Square(a.x - b.x) + Square(a.y - b.y))
  }

  // ---------------------------------------------------------------- recording

  /** Consecutive samples of the path are at least the admission step apart. */
  ghost predicate Spaced(sqrt: real -> real, path: seq<Vector2>)
    requires IsSqrt(sqrt)
  {
    forall i :: 0 <= i < |path| - 1 ==> PC.Distance(sqrt, path[i], path[i + 1]) >= MinDistanceBetweenPoints
  }

  /**
   * What holds of the capture state throughout a recording: the path starts
   * at the start position, the first corner is the start, every 2D corner is
   * the projection of its 3D twin, the samples are spaced by the admission
   * step, the walked distance is the length of the path and the distance to
   * the start is measured from the current position.
   */
  ghost predicate RecordingInvariant(sqrt: real -> real, s: FloorMapCaptureState)
    requires IsSqrt(sqrt)
  {
    s.recordingState == Recording ==>
      && |s.pathPoints| >= 1
      && s.startPosition == Some(s.pathPoints[0])
      && s.startPosition3d.Some? && Project(s.startPosition3d.value) == s.pathPoints[0]
      && s.currentPosition3d.Some? && s.currentPosition == Some(Project(s.currentPosition3d.value))
      && |s.cornerPoints| == |s.cornerPoints3d| >= 1
      && s.cornerPoints[0] == s.pathPoints[0]
      && (forall i :: 0 <= i < |s.cornerPoints| ==> s.cornerPoints[i] == Project(s.cornerPoints3d[i]))
      && Spaced(sqrt, s.pathPoints)
      && s.distanceTraveled == PC.PathLength(sqrt, s.pathPoints)
      && s.distanceToStart == Some(PC.Distance(sqrt, s.currentPosition.value, s.pathPoints[0]))
  }

  /** The state `startRecording(initialPosition)` produces from `s`. */
  function RecordingStarted(s: FloorMapCaptureState, initialPosition: Vector3): (r: FloorMapCaptureState)
    ensures r.recordingState == Recording
    ensures r.features == s.features && r.anchors == s.anchors && r.currentPins == s.currentPins
    ensures r.relocalization == s.relocalization && r.anchorPlacementState == s.anchorPlacementState
  {
    var start := Project(initialPosition);
    s.(recordingState := Recording, pathPoints := [start], cornerPoints := [start],
       cornerPoints3d := [initialPosition], currentPosition := Some(start),
       currentPosition3d := Some(initialPosition), startPosition := Some(start),
       startPosition3d := Some(initialPosition), distanceTraveled := 0.0, distanceToStart := Some(0.0))
  }

  /** A recording starts with one sample, one corner, nothing walked, at the start. */
  lemma StartEstablishesInvariant(sqrt: real -> real, s: FloorMapCaptureState, initialPosition: Vector3)
    requires IsSqrt(sqrt)
    ensures RecordingInvariant(sqrt, RecordingStarted(s, initialPosition))
    ensures RecordingStarted(s, initialPosition).pathPoints == [Project(initialPosition)]
    ensures RecordingStarted(s, initialPosition).distanceTraveled == 0.0
  {
    var start := Project(initialPosition);
    PC.DistanceZeroIff(sqrt, start, start);
  }

  /**
   * The state `updatePosition(position3d)` produces from `s`: outside a
   * recording nothing changes; otherwise the current position always follows
   * the device, and the projected point joins the path, adding its step to
   * the walked distance, only when it lies at least the admission step away
   * from the last sample.
   */
  function PositionUpdated(sqrt: real -> real, s: FloorMapCaptureState, position3d: Vector3): (r: FloorMapCaptureState)
    requires IsSqrt(sqrt)
    ensures r.recordingState == s.recordingState
    ensures r.cornerPoints == s.cornerPoints && r.cornerPoints3d == s.cornerPoints3d
    ensures r.features == s.features && r.anchors == s.anchors && r.currentPins == s.currentPins
    ensures r.startPosition == s.startPosition && r.startPosition3d == s.startPosition3d
  {
    if s.recordingState != Recording || s.pathPoints == [] then s
    else
      var newPoint := Project(position3d);
      var distFromLast := Distance(sqrt, s.pathPoints[|s.pathPoints| - 1], newPoint);
      var distToStart := if s.startPosition.Some? then Distance(sqrt, newPoint, s.startPosition.value) else 0.0;
      if distFromLast >= MinDistanceBetweenPoints then
        s.(pathPoints := s.pathPoints + [newPoint], currentPosition := Some(newPoint),
           currentPosition3d := Some(position3d), distanceTraveled := s.distanceTraveled + distFromLast,
           distanceToStart := Some(distToStart))
      else
        s.(currentPosition := Some(newPoint), currentPosition3d := Some(position3d),
           distanceToStart := Some(distToStart))
  }

  /** The path only ever grows by the new point, and only by an admissible step. */
  lemma PositionUpdateEffect(sqrt: real -> real, s: FloorMapCaptureState, position3d: Vector3)
    requires IsSqrt(sqrt)
    requires RecordingInvariant(sqrt, s)
    ensures var r := PositionUpdated(sqrt, s, position3d);
      s.recordingState != Recording ==> r == s
    ensures var r := PositionUpdated(sqrt, s, position3d);
      s.recordingState == Recording ==>
        var step := PC.Distance(sqrt, s.pathPoints[|s.pathPoints| - 1], Project(position3d));
        && r.currentPosition == Some(Project(position3d))
        && r.currentPosition3d == Some(position3d)
        && (step >= MinDistanceBetweenPoints <==> |r.pathPoints| == |s.pathPoints| + 1)
        && (step >= MinDistanceBetweenPoints ==>
              r.pathPoints == s.pathPoints + [Project(position3d)] && r.distanceTraveled == s.distanceTraveled + step)
        && (step < MinDistanceBetweenPoints ==>
              r.pathPoints == s.pathPoints && r.distanceTraveled == s.distanceTraveled)
  {
  }

  /** Appending a point adds the last step to the length of a path. */
  lemma PathLengthSnoc(sqrt: real -> real, path: seq<Vector2>, p: Vector2)
    requires IsSqrt(sqrt)
    requires path != []
    ensures PC.PathLength(sqrt, path + [p]) == PC.PathLength(sqrt, path) + PC.Distance(sqrt, path[|path| - 1], p)
  {
    assert (path + [p])[..|path|] == path;
  }

  /** Position updates keep the recording invariant. */
  lemma PositionUpdatePreservesInvariant(sqrt: real -> real, s: FloorMapCaptureState, position3d: Vector3)
    requires IsSqrt(sqrt)
    requires RecordingInvariant(sqrt, s)
    ensures RecordingInvariant(sqrt, PositionUpdated(sqrt, s, position3d))
  {
    if s.recordingState == Recording {
      var path := s.pathPoints;
      var newPoint := Project(position3d);
      var step := PC.Distance(sqrt, path[|path| - 1], newPoint);
      var r := PositionUpdated(sqrt, s, position3d);
      if step >= MinDistanceBetweenPoints {
        PathLengthSnoc(sqrt, path, newPoint);
        var path' := path + [newPoint];
        assert r.pathPoints == path';
        forall i | 0 <= i < |path'| - 1
          ensures PC.Distance(sqrt, path'[i], path'[i + 1]) >= MinDistanceBetweenPoints
        {
          if i < |path| - 1 {
            assert path'[i] == path[i] && path'[i + 1] == path[i + 1];
          }
        }
        assert path'[0] == path[0];
      }
    }
  }

  /** Repeating an update with the same position changes nothing more. */
  lemma PositionUpdateIdempotent(sqrt: real -> real, s: FloorMapCaptureState, position3d: Vector3)
    requires IsSqrt(sqrt)
    ensures PositionUpdated(sqrt, PositionUpdated(sqrt, s, position3d), position3d) == PositionUpdated(sqrt, s, position3d)
  {
    if s.recordingState == Recording && s.pathPoints != [] {
      var newPoint := Project(position3d);
      var r := PositionUpdated(sqrt, s, position3d);
      if Distance(sqrt, s.pathPoints[|s.pathPoints| - 1], newPoint) >= MinDistanceBetweenPoints {
        assert r.pathPoints[|r.pathPoints| - 1] == newPoint;
        PC.DistanceZeroIff(sqrt, newPoint, newPoint);
      }
    }
  }

  // ---------------------------------------------------------------- loop closing

  /** `isNearStart`: close to the start, after more than the minimum walk. */
  predicate NearStart(s: FloorMapCaptureState) {
    s.distanceToStart.Some? && s.distanceToStart.value < CloseToStartThreshold && s.distanceTraveled > MinTravelToClose
  }

  /**
   * During a recording, being near the start means the path has at least two
   * samples, has more than the minimum length and ends its current position
   * within the threshold of the start.
   */
  lemma NearStartMeansWalkedLoop(sqrt: real -> real, s: FloorMapCaptureState)
    requires IsSqrt(sqrt)
    requires RecordingInvariant(sqrt, s) && s.recordingState == Recording
    ensures NearStart(s) <==>
      PC.Distance(sqrt, s.currentPosition.value, s.pathPoints[0]) < CloseToStartThreshold
      && PC.PathLength(sqrt, s.pathPoints) > MinTravelToClose
    ensures NearStart(s) ==> |s.pathPoints| >= 2
  {
  }

  // ---------------------------------------------------------------- finalizing

  /** The mean of the points in `points[start..end]`. */
  function WindowMean(points: seq<Vector2>, start: nat, end: nat): Vector2
    requires start < end <= |points|
  {
    Vector2(Mean(PC.Xs(points[start..end])), Mean(PC.Ys(points[start..end])))
  }

  /**
   * `smoothPath` with its default window of three: each point becomes the
   * mean of itself and its neighbours; fewer than three points are returned
   * as they are.
   */
  function SmoothPath(points: seq<Vector2>): (r: seq<Vector2>)
    ensures |r| == |points|
    ensures |points| < 3 ==> r == points
  {
    if |points| < 3 then points
    else
      seq(|points|, i requires 0 <= i < |points| =>
        WindowMean(points, if i - 1 < 0 then 0 else i - 1, if i + 2 > |points| then |points| else i + 2))
  }

  /** Smoothing never moves a point outside the bounding box of the raw path. */
  lemma SmoothPathStaysInBoundingBox(points: seq<Vector2>)
    ensures forall i :: 0 <= i < |points| ==> PC.GetBoundingBox(points).Contains(SmoothPath(points)[i])
  {
    if |points| >= 3 {
      var box := PC.GetBoundingBox(points);
      forall i | 0 <= i < |points|
        ensures box.Contains(SmoothPath(points)[i])
      {
        var start := if i - 1 < 0 then 0 else i - 1;
        var end := if i + 2 > |points| then |points| else i + 2;
        var window := points[start..end];
        assert SmoothPath(points)[i] == WindowMean(points, start, end);
        var xs, ys := PC.Xs(window), PC.Ys(window);
        forall k | 0 <= k < |window|
          ensures box.minX <= xs[k] <= box.maxX && box.minY <= ys[k] <= box.maxY
        {
          assert window[k] == points[start + k];
          assert box.Contains(points[start + k]);
        }
        MeanBounds(xs, box.minX, box.maxX);
        MeanBounds(ys, box.minY, box.maxY);
      }
    }
  }

  /** Repeats the first point at the end when closing and at least `minSize` points are present. */
  function Closed(points: seq<Vector2>, closePath: bool, minSize: nat): (r: seq<Vector2>)
    requires minSize >= 1
    ensures closePath && |points| >= minSize ==> |r| == |points| + 1 && r[..|points|] == points && r[|points|] == points[0]
    ensures !(closePath && |points| >= minSize) ==> r == points
  {
    if closePath && |points| >= minSize then points + [points[0]] else points
  }

  /** The finalized path: smoothed, and closed back to its first sample when closing with three or more. */
  function FinalPath(path: seq<Vector2>, closePath: bool): seq<Vector2> {
    Closed(SmoothPath(path), closePath, 3)
  }

  /** The finalized corners: closed back to the first corner when closing with two or more. */
  function FinalCorners(corners: seq<Vector2>, closePath: bool): seq<Vector2> {
    Closed(corners, closePath, 2)
  }

  /** The label of the pin at `index` among `count` finalized corners. */
  function PinLabel(index: nat, count: nat, closePath: bool): Option<string> {
    if index == 0 then Some("Start")
    else if index == count - 1 then (if closePath then None else Some("End"))
    else Some("Corner " + NatToString(index))
  }

  /** One pin per finalized corner, lying on the floor (height 0) at the corner. */
  function CornerPins(corners: seq<Vector2>, closePath: bool, pinIds: nat -> string, now: int): (pins: seq<FloorPlanPin>)
    ensures |pins| == |corners|
  {
    seq(|corners|, i requires 0 <= i < |corners| =>
      FloorPlanPin(pinIds(i), Vector3(corners[i].x, 0.0, corners[i].y), corners[i], now,
                   PinLabel(i, |corners|, closePath), true))
  }

  /**
   * The pins follow the corners in order: the first is "Start", the last is
   * "End" on an open path and unlabelled on a closed one (it repeats the
   * start), the ones between are "Corner i".
   */
  lemma CornerPinsFollowCorners(corners: seq<Vector2>, closePath: bool, pinIds: nat -> string, now: int)
    ensures var pins := CornerPins(corners, closePath, pinIds, now);
      forall i :: 0 <= i < |pins| ==> pins[i].position2d == corners[i] && IsProjected(pins[i]) && pins[i].position3d.y == 0.0
    ensures var pins := CornerPins(corners, closePath, pinIds, now);
      |pins| >= 1 ==> pins[0].pinLabel == Some("Start")
    ensures var pins := CornerPins(corners, closePath, pinIds, now);
      |pins| >= 2 ==> pins[|pins| - 1].pinLabel == (if closePath then None else Some("End"))
    ensures var pins := CornerPins(corners, closePath, pinIds, now);
      forall i :: 0 < i < |pins| - 1 ==> pins[i].pinLabel == Some("Corner " + NatToString(i))
    ensures var pins := CornerPins(corners, closePath, pinIds, now);
      forall i :: 0 <= i < |pins| ==> (pins[i].pinLabel == None <==> closePath && 0 < i == |pins| - 1)
  {
    var pins := CornerPins(corners, closePath, pinIds, now);
    forall i | 0 <= i < |pins|
      ensures pins[i].pinLabel == PinLabel(i, |corners|, closePath)
    {
    }
  }

  /** The perimeter recorded when finishing: of the finalized corners, once there are two. */
  function FinalPerimeter(sqrt: real -> real, corners: seq<Vector2>, closePath: bool): Option<real>
    requires IsSqrt(sqrt)
  {
    var c := FinalCorners(corners, closePath);
    if |c| >= 2 then Some(PC.Perimeter(sqrt, c, closePath)) else None
  }

  /** The area recorded when finishing: of the closed corners without their repeated end. */
  function FinalArea(corners: seq<Vector2>, closePath: bool): Option<real> {
    var c := FinalCorners(corners, closePath);
    if closePath && |c| >= 4 then Some(PC.Area(c[..|c| - 1])) else None
  }

  /**
   * A perimeter is recorded exactly when two corners were marked, and it is
   * the perimeter of the marked corners: closing adds the edge back to the
   * start once (the repeated start adds a zero-length edge).
   */
  lemma FinalPerimeterIsCornerPerimeter(sqrt: real -> real, corners: seq<Vector2>, closePath: bool)
    requires IsSqrt(sqrt)
    ensures FinalPerimeter(sqrt, corners, closePath).Some? <==> |corners| >= 2
    ensures |corners| >= 2 ==> FinalPerimeter(sqrt, corners, closePath) == Some(PC.Perimeter(sqrt, corners, closePath))
  {
    if closePath && |corners| >= 2 {
      var c := corners + [corners[0]];
      PathLengthSnoc(sqrt, corners, corners[0]);
      PC.DistanceZeroIff(sqrt, c[|c| - 1], c[0]);
    }
  }

  /** An area is recorded exactly when a closed path has three corners, and it is their polygon's area. */
  lemma FinalAreaIsCornerArea(corners: seq<Vector2>, closePath: bool)
    ensures FinalArea(corners, closePath).Some? <==> closePath && |corners| >= 3
    ensures FinalArea(corners, closePath).Some? ==> FinalArea(corners, closePath) == Some(PC.Area(corners))
  {
    if closePath && |corners| >= 3 {
      assert FinalCorners(corners, closePath)[..|corners|] == corners;
    }
  }

  /** Closing repeats the start exactly once at the end; an open path keeps its corners. */
  lemma FinalCornersClosing(corners: seq<Vector2>, closePath: bool)
    ensures var c := FinalCorners(corners, closePath);
      closePath && |corners| >= 2 ==> c[0] == c[|c| - 1] && c[..|c| - 1] == corners
    ensures !closePath ==> FinalCorners(corners, closePath) == corners
    ensures var p := FinalPath(corners, closePath);
      closePath && |corners| >= 3 ==> |p| == |corners| + 1 && p[0] == p[|p| - 1]
  {
  }

  // ---------------------------------------------------------------- relocalization

  /** `startRelocalization(anchor)`: relocalizing towards `anchor`, not yet matched, no offset. */
  function RelocalizationStarted(anchor: MapAnchor): (r: RelocalizationState)
    ensures r.isRelocalizing && r.targetAnchor == Some(anchor) && !r.isMatched
    ensures r.coordinateOffset == None && r.rotationOffset == 0.0
  {
    RelocalizationState(true, Some(anchor), false, None, 0.0)
  }

  /**
   * `confirmRelocalization`: the offset moves the observed floor position onto
   * the anchor's recorded position and the rotation turns the current heading
   * into the anchor's; without a target nothing changes.
   */
  function RelocalizationConfirmed(reloc: RelocalizationState, observed: Vector3, heading: real): RelocalizationState {
    match reloc.targetAnchor
    case None => reloc
    case Some(anchor) =>
      reloc.(isMatched := true,
             coordinateOffset := Some(Vector2(anchor.position.x - observed.x, anchor.position.y - observed.z)),
             rotationOffset := anchor.compassHeading - heading)
  }

  /** `applyRelocalizationOffset`: shifts by the offset, when one is known. */
  function ApplyOffset(reloc: RelocalizationState, position: Vector2): (r: Vector2)
    ensures reloc.coordinateOffset.None? ==> r == position
    ensures reloc.coordinateOffset.Some? ==>
      r.x - position.x == reloc.coordinateOffset.value.x && r.y - position.y == reloc.coordinateOffset.value.y
  {
    match reloc.coordinateOffset
    case None => position
    case Some(offset) => Vector2(position.x + offset.x, position.y + offset.y)
  }

  /**
   * After confirming, the observed position maps exactly onto the anchor and
   * the heading plus the rotation offset is the anchor's heading; the target
   * is kept and the flow is matched.
   */
  lemma ConfirmedOffsetAlignsWithAnchor(reloc: RelocalizationState, observed: Vector3, heading: real)
    requires reloc.targetAnchor.Some?
    ensures var r := RelocalizationConfirmed(reloc, observed, heading);
      && ApplyOffset(r, Project(observed)) == reloc.targetAnchor.value.position
      && heading + r.rotationOffset == reloc.targetAnchor.value.compassHeading
      && r.isMatched && r.targetAnchor == reloc.targetAnchor && r.isRelocalizing == reloc.isRelocalizing
  {
  }

  /** Without a target, confirming changes nothing, and without an offset positions are unchanged. */
  lemma NoTargetNoOffset(reloc: RelocalizationState, anchor: MapAnchor, observed: Vector3, heading: real, position: Vector2)
    ensures reloc.targetAnchor.None? ==> RelocalizationConfirmed(reloc, observed, heading) == reloc
    ensures ApplyOffset(NoRelocalization, position) == position
    ensures ApplyOffset(RelocalizationStarted(anchor), position) == position
  {
  }

  /** The offset is a translation: it keeps every distance between positions. */
  lemma OffsetPreservesDistances(sqrt: real -> real, reloc: RelocalizationState, a: Vector2, b: Vector2)
    requires IsSqrt(sqrt)
    ensures PC.Distance(sqrt, ApplyOffset(reloc, a), ApplyOffset(reloc, b)) == PC.Distance(sqrt, a, b)
  {
    var a', b' := ApplyOffset(reloc, a), ApplyOffset(reloc, b);
    assert b'.x - a'.x == b.x - a.x && b'.y - a'.y == b.y - a.y;
  }

  // ---------------------------------------------------------------- features

  /** The feature list without the features carrying `featureId`, in order. */
  function RemoveById(features: seq<RoomFeature>, featureId: string): (r: seq<RoomFeature>)
    ensures |r| <= |features|
    ensures forall f :: f in r <==> f in features && f.id != featureId
    ensures (forall i :: 0 <= i < |features| ==> features[i].id != featureId) ==> r == features
    decreases |features|
  {
    if features == [] then []
    else
      var init, last := features[..|features| - 1], features[|features| - 1];
      assert features == init + [last];
      var rest := RemoveById(init, featureId);
      if last.id != featureId then rest + [last] else rest
  }

  /** The feature list with the photo of the features carrying `featureId` replaced. */
  function WithPhoto(features: seq<RoomFeature>, featureId: string, photoPath: Option<string>): (r: seq<RoomFeature>)
    ensures |r| == |features|
  {
    seq(|features|, i requires 0 <= i < |features| =>
      if features[i].id == featureId then features[i].(photoPath := photoPath) else features[i])
  }

  /**
   * A photo update touches only the features carrying the id, keeps every id
   * and position, and is undone by the update it replaced.
   */
  lemma WithPhotoEffect(features: seq<RoomFeature>, featureId: string, photoPath: Option<string>)
    ensures var r := WithPhoto(features, featureId, photoPath);
      forall i :: 0 <= i < |features| ==>
        && r[i].id == features[i].id && r[i].position == features[i].position
        && (features[i].id == featureId ==> r[i].photoPath == photoPath)
        && (features[i].id != featureId ==> r[i] == features[i])
    ensures (forall i :: 0 <= i < |features| ==> features[i].id == featureId ==> features[i].photoPath == photoPath)
      ==> WithPhoto(features, featureId, photoPath) == features
  {
  }

  /** Removing a feature forgets any photo given to it. */
  lemma {:induction false} RemoveAfterPhotoUpdate(features: seq<RoomFeature>, featureId: string, photoPath: Option<string>)
    ensures RemoveById(WithPhoto(features, featureId, photoPath), featureId) == RemoveById(features, featureId)
    decreases |features|
  {
    if features != [] {
      var init := features[..|features| - 1];
      var w := WithPhoto(features, featureId, photoPath);
      assert w[..|w| - 1] == WithPhoto(init, featureId, photoPath);
      RemoveAfterPhotoUpdate(init, featureId, photoPath);
    }
  }
}
