/**
 * The floor-map view model: it owns the capture state and the floor plan being
 * captured, and each of its operations replaces them with an updated copy.
 * The compass heading, the clock and the identifiers the source draws from
 * the sensors, `System.currentTimeMillis()` and `UUID.randomUUID()` are
 * parameters; `sqrt` is fixed at construction.
 */
module FloorMap {
  import opened Optional
  import opened RealMath
  import opened Text
  import opened FloorPlanModels
  import opened CaptureRules
  import PC = PolygonCalculator

  /** The `(x, y)` of every pin, in order. */
  function PinPositions(pins: seq<FloorPlanPin>): (points: seq<Vector2>)
    ensures |points| == |pins|
    ensures forall i :: 0 <= i < |pins| ==> points[i] == pins[i].position2d
  {
    seq(|pins|, i requires 0 <= i < |pins| => pins[i].position2d)
  }

  /**
   * The corner half of `stopRecording`: closes the marked corners when asked,
   * then measures the perimeter (two corners or more) and, for a closed
   * outline of three corners or more, the area.
   */
  method MeasureCorners(sqrt: real -> real, marked: seq<Vector2>, closePath: bool)
      returns (cornerPoints: seq<Vector2>, perimeter: Option<real>, area: Option<real>)
    requires IsSqrt(sqrt)
    ensures cornerPoints == FinalCorners(marked, closePath)
    ensures perimeter == FinalPerimeter(sqrt, marked, closePath)
    ensures area == FinalArea(marked, closePath)
  {
    cornerPoints := marked;
    if closePath && |cornerPoints| >= 2 {
      cornerPoints := cornerPoints + [cornerPoints[0]];
    }
    perimeter := None;
    if |cornerPoints| >= 2 {
      var p := PC.CalculatePerimeter(sqrt, cornerPoints, closePath);
      perimeter := Some(p);
    }
    area := None;
    if closePath && |cornerPoints| >= 4 {
      var a := PC.CalculateArea(cornerPoints[..|cornerPoints| - 1]);
      area := Some(a);
    }
  }

  class FloorMapViewModel {
    const sqrt: real -> real
    var captureState: FloorMapCaptureState
    var currentFloorPlan: Option<FloorPlan>

    ghost predicate Valid()
      reads this
    {
      IsSqrt(sqrt) && RecordingInvariant(sqrt, captureState)
    }

    constructor(sqrt: real -> real)
      requires IsSqrt(sqrt)
      ensures Valid()
      ensures this.sqrt == sqrt
      ensures captureState == InitialCaptureState() && currentFloorPlan == None
    {
      this.sqrt := sqrt;
      captureState := InitialCaptureState();
      currentFloorPlan := None;
    }

    /**
     * `startCapture`: continues an existing plan (with its pins) or begins a
     * new one named after the clock, with a fresh capture state.
     */
    method StartCapture(existing: Option<FloorPlan>, newPlanId: string, now: nat)
      requires Valid()
      modifies this
      ensures Valid()
      ensures existing.Some? ==> currentFloorPlan == existing && captureState.currentPins == existing.value.pins
      ensures existing.None? ==> currentFloorPlan == Some(NewFloorPlan(newPlanId, "Floor Plan " + NatToString(now), now))
      ensures existing.None? ==> captureState.currentPins == []
      ensures captureState == InitialCaptureState().(currentPins := captureState.currentPins)
    {
      match existing {
        case Some(plan) =>
          currentFloorPlan := existing;
          captureState := InitialCaptureState().(currentPins := plan.pins);
        case None =>
          currentFloorPlan := Some(NewFloorPlan(newPlanId, "Floor Plan " + NatToString(now), now));
          captureState := InitialCaptureState();
      }
    }

    /** `startRecording`: the start becomes the first sample and the first corner. */
    method StartRecording(initialPosition: Vector3)
      requires Valid()
      modifies this
      ensures Valid()
      ensures captureState == RecordingStarted(old(captureState), initialPosition)
      ensures captureState.pathPoints == [Project(initialPosition)] && captureState.distanceTraveled == 0.0
      ensures currentFloorPlan == old(currentFloorPlan)
    {
      var startPos := Project(initialPosition);
      captureState := captureState.(
        recordingState := Recording,
        pathPoints := [startPos],
        cornerPoints := [startPos],
        cornerPoints3d := [initialPosition],
        currentPosition := Some(startPos),
        currentPosition3d := Some(initialPosition),
        startPosition := Some(startPos),
        startPosition3d := Some(initialPosition),
        distanceTraveled := 0.0,
        distanceToStart := Some(0.0));
      StartEstablishesInvariant(sqrt, old(captureState), initialPosition);
    }

    /** `markCorner`: during a recording, the current position becomes the next corner. */
    method MarkCorner()
      requires Valid()
      modifies this
      ensures Valid()
      ensures var s := old(captureState);
        s.recordingState != Recording ==> captureState == s
      ensures var s := old(captureState);
        s.recordingState == Recording ==>
          captureState == s.(cornerPoints := s.cornerPoints + [s.currentPosition.value],
                             cornerPoints3d := s.cornerPoints3d + [s.currentPosition3d.value])
      ensures currentFloorPlan == old(currentFloorPlan)
    {
      var current := captureState;
      if current.recordingState != Recording {
        return;
      }
      if current.currentPosition.None? {
        return;
      }
      var pos := current.currentPosition.value;
      var corners3d := if current.currentPosition3d.Some? then current.cornerPoints3d + [current.currentPosition3d.value]
                       else current.cornerPoints3d;
      captureState := current.(cornerPoints := current.cornerPoints + [pos], cornerPoints3d := corners3d);
      assert RecordingInvariant(sqrt, captureState) by {
        var c, c3 := captureState.cornerPoints, captureState.cornerPoints3d;
        forall i | 0 <= i < |c|
          ensures c[i] == Project(c3[i])
        {
          if i < |current.cornerPoints| {
            assert c[i] == current.cornerPoints[i] && c3[i] == current.cornerPoints3d[i];
          }
        }
      }
    }

    /** `updatePosition`: admits the tracked position into the walked path, see `PositionUpdated`. */
    method UpdatePosition(position3d: Vector3)
      requires Valid()
      modifies this
      ensures Valid()
      ensures captureState == PositionUpdated(sqrt, old(captureState), position3d)
      ensures currentFloorPlan == old(currentFloorPlan)
    {
      var current := captureState;
      ghost var next := PositionUpdated(sqrt, current, position3d);
      PositionUpdatePreservesInvariant(sqrt, current, position3d);
      if current.recordingState != Recording {
        return;
      }
      var newPoint := Project(position3d);
      var pathPoints := current.pathPoints;
      if pathPoints == [] {
        return;
      }
      var lastPoint := pathPoints[|pathPoints| - 1];
      var distFromLast := Distance(sqrt, lastPoint, newPoint);
      var distToStart := match current.startPosition
        case Some(start) => Distance(sqrt, newPoint, start)
        case None => 0.0;
      if distFromLast >= MinDistanceBetweenPoints {
        var newDistance := current.distanceTraveled + distFromLast;
        captureState := current.(
          pathPoints := pathPoints + [newPoint],
          currentPosition := Some(newPoint),
          currentPosition3d := Some(position3d),
          distanceTraveled := newDistance,
          distanceToStart := Some(distToStart));
      } else {
        captureState := current.(
          currentPosition := Some(newPoint),
          currentPosition3d := Some(position3d),
          distanceToStart := Some(distToStart));
      }
      assert captureState == next;
    }

    /** `isNearStart`: back within the threshold of the start after the minimum walk. */
    method IsNearStart() returns (near: bool)
      requires Valid()
      ensures near == NearStart(captureState)
      ensures near && captureState.recordingState == Recording ==>
        PC.Distance(sqrt, captureState.currentPosition.value, captureState.pathPoints[0]) < CloseToStartThreshold
        && PC.PathLength(sqrt, captureState.pathPoints) > MinTravelToClose
        && |captureState.pathPoints| >= 2
    {
      var distToStart := captureState.distanceToStart;
      if distToStart.None? {
        return false;
      }
      near := distToStart.value < CloseToStartThreshold && captureState.distanceTraveled > MinTravelToClose;
      if captureState.recordingState == Recording {
        NearStartMeansWalkedLoop(sqrt, captureState);
      }
    }

    /**
     * `stopRecording`: smooths and, when closing, closes the path; closes the
     * corners; turns the corners into pins; and stores them with the
     * features, anchors, perimeter, area and heading in the floor plan.
     */
    method StopRecording(closePath: bool, heading: real, pinIds: nat -> string, now: int)
      requires Valid()
      modifies this
      ensures Valid()
      ensures old(captureState).recordingState != Recording ==>
        captureState == old(captureState) && currentFloorPlan == old(currentFloorPlan)
      ensures var s := old(captureState);
        var corners := FinalCorners(s.cornerPoints, closePath);
        s.recordingState == Recording ==>
          captureState == s.(recordingState := Completed, pathPoints := FinalPath(s.pathPoints, closePath),
                             cornerPoints := corners, currentPins := CornerPins(corners, closePath, pinIds, now))
      ensures var s := old(captureState);
        var corners := FinalCorners(s.cornerPoints, closePath);
        s.recordingState == Recording ==>
          currentFloorPlan == (match old(currentFloorPlan)
            case None => None
            case Some(plan) => Some(plan.(pins := CornerPins(corners, closePath, pinIds, now), cornerPoints := corners,
                                          features := s.features, anchors := s.anchors,
                                          perimeterMeters := FinalPerimeter(sqrt, s.cornerPoints, closePath),
                                          areaSquareMeters := FinalArea(s.cornerPoints, closePath),
                                          isClosed := closePath, northOffsetDegrees := heading)))
    {
      var current := captureState;
      if current.recordingState != Recording {
        return;
      }
      var pathPoints := SmoothPath(current.pathPoints);
      if closePath && |pathPoints| >= 3 {
        pathPoints := pathPoints + [pathPoints[0]];
      }
      var cornerPoints, perimeter, area := MeasureCorners(sqrt, current.cornerPoints, closePath);
      var pins := CornerPins(cornerPoints, closePath, pinIds, now);
      captureState := current.(recordingState := Completed, pathPoints := pathPoints,
                               cornerPoints := cornerPoints, currentPins := pins);
      if currentFloorPlan.Some? {
        currentFloorPlan := Some(currentFloorPlan.value.(
          pins := pins, cornerPoints := cornerPoints, features := current.features, anchors := current.anchors,
          perimeterMeters := perimeter, areaSquareMeters := area, isClosed := closePath,
          northOffsetDegrees := heading));
      }
    }

    /** `resetRecording`: back to an idle capture with nothing recorded; the floor plan is kept. */
    method ResetRecording()
      requires Valid()
      modifies this
      ensures Valid()
      ensures captureState == InitialCaptureState()
      ensures currentFloorPlan == old(currentFloorPlan)
    {
      captureState := captureState.(
        recordingState := Idle,
        pathPoints := [],
        cornerPoints := [],
        cornerPoints3d := [],
        features := [],
        anchors := [],
        currentPosition := None,
        currentPosition3d := None,
        startPosition := None,
        startPosition3d := None,
        distanceTraveled := 0.0,
        distanceToStart := None,
        currentPins := [],
        showFeaturePicker := false,
        anchorPlacementState := NotPlacing,
        pendingAnchorLabel := None,
        relocalization := NoRelocalization,
        pendingFeaturePhotoId := None);
    }

    // ------------------------------------------------------------ features

    method ShowFeaturePicker()
      requires Valid()
      modifies this
      ensures Valid()
      ensures captureState == old(captureState).(showFeaturePicker := true)
      ensures currentFloorPlan == old(currentFloorPlan)
    {
      captureState := captureState.(showFeaturePicker := true);
    }

    method HideFeaturePicker()
      requires Valid()
      modifies this
      ensures Valid()
      ensures captureState == old(captureState).(showFeaturePicker := false)
      ensures currentFloorPlan == old(currentFloorPlan)
    {
      captureState := captureState.(showFeaturePicker := false);
    }

    /**
     * `addFeature`: a feature at the current position (and its 3D twin) joins
     * the list and the picker closes; without a current position nothing changes.
     */
    method AddFeature(featureType: FeatureType, featureLabel: Option<string>, photoPath: Option<string>,
                      bleDeviceAddress: Option<string>, bleDeviceName: Option<string>, notes: Option<string>,
                      featureId: string, now: int)
      requires Valid()
      modifies this
      ensures Valid()
      ensures var s := old(captureState);
        s.currentPosition.None? ==> captureState == s
      ensures var s := old(captureState);
        s.currentPosition.Some? ==>
          captureState == s.(features := s.features + [RoomFeature(featureId, featureType, s.currentPosition.value,
                                                                    s.currentPosition3d, featureLabel, photoPath,
                                                                    bleDeviceAddress, bleDeviceName, notes, now)],
                             showFeaturePicker := false)
      ensures currentFloorPlan == old(currentFloorPlan)
    {
      var current := captureState;
      if current.currentPosition.None? {
        return;
      }
      var feature := RoomFeature(featureId, featureType, current.currentPosition.value, current.currentPosition3d,
                                 featureLabel, photoPath, bleDeviceAddress, bleDeviceName, notes, now);
      captureState := current.(features := current.features + [feature], showFeaturePicker := false);
    }

    /** `removeFeature`: drops every feature carrying the id. */
    method RemoveFeature(featureId: string)
      requires Valid()
      modifies this
      ensures Valid()
      ensures captureState == old(captureState).(features := RemoveById(old(captureState).features, featureId))
      ensures forall f :: f in captureState.features <==> f in old(captureState).features && f.id != featureId
      ensures currentFloorPlan == old(currentFloorPlan)
    {
      captureState := captureState.(features := RemoveById(captureState.features, featureId));
    }

    /** `updateFeaturePhoto`: sets (or clears) the photo of the features carrying the id. */
    method UpdateFeaturePhoto(featureId: string, photoPath: Option<string>)
      requires Valid()
      modifies this
      ensures Valid()
      ensures captureState == old(captureState).(features := WithPhoto(old(captureState).features, featureId, photoPath))
      ensures currentFloorPlan == old(currentFloorPlan)
    {
      captureState := captureState.(features := WithPhoto(captureState.features, featureId, photoPath));
    }

    /** `requestFeaturePhoto`: remembers which feature the next photo belongs to. */
    method RequestFeaturePhoto(featureId: string)
      requires Valid()
      modifies this
      ensures Valid()
      ensures captureState == old(captureState).(pendingFeaturePhotoId := Some(featureId))
      ensures currentFloorPlan == old(currentFloorPlan)
    {
      captureState := captureState.(pendingFeaturePhotoId := Some(featureId));
    }

    /** `saveFeaturePhoto`: attaches the photo to the pending feature and clears the request. */
    method SaveFeaturePhoto(photoPath: string)
      requires Valid()
      modifies this
      ensures Valid()
      ensures var s := old(captureState);
        s.pendingFeaturePhotoId.None? ==> captureState == s
      ensures var s := old(captureState);
        s.pendingFeaturePhotoId.Some? ==>
          captureState == s.(features := WithPhoto(s.features, s.pendingFeaturePhotoId.value, Some(photoPath)),
                             pendingFeaturePhotoId := None)
      ensures currentFloorPlan == old(currentFloorPlan)
    {
      var current := captureState;
      match current.pendingFeaturePhotoId {
        case None =>
        case Some(featureId) =>
          captureState := current.(features := WithPhoto(current.features, featureId, Some(photoPath)),
                                   pendingFeaturePhotoId := None);
      }
    }

    /** `cancelFeaturePhoto`: forgets the pending request. */
    method CancelFeaturePhoto()
      requires Valid()
      modifies this
      ensures Valid()
      ensures captureState == old(captureState).(pendingFeaturePhotoId := None)
      ensures currentFloorPlan == old(currentFloorPlan)
    {
      captureState := captureState.(pendingFeaturePhotoId := None);
    }

    // ------------------------------------------------------------ anchors

    /**
     * `startAnchorPlacement`: the user walks to the anchor spot; the label waits
     * for the photo. An absent label stands for the default argument, "Doorway".
     */
    method StartAnchorPlacement(anchorLabel: Option<string>)
      requires Valid()
      modifies this
      ensures Valid()
      ensures anchorLabel.Some? ==>
        captureState == old(captureState).(anchorPlacementState := Positioning, pendingAnchorLabel := anchorLabel)
      ensures anchorLabel.None? ==>
        captureState == old(captureState).(anchorPlacementState := Positioning, pendingAnchorLabel := Some(DefaultAnchorLabel))
      ensures currentFloorPlan == old(currentFloorPlan)
    {
      var chosen := anchorLabel.OrElse(DefaultAnchorLabel);
      captureState := captureState.(anchorPlacementState := Positioning, pendingAnchorLabel := Some(chosen));
    }

    /** `confirmAnchorPosition`: ready for the photo. */
    method ConfirmAnchorPosition()
      requires Valid()
      modifies this
      ensures Valid()
      ensures captureState == old(captureState).(anchorPlacementState := Capturing)
      ensures currentFloorPlan == old(currentFloorPlan)
    {
      captureState := captureState.(anchorPlacementState := Capturing);
    }

    /**
     * `saveAnchor`: an anchor at the current position, with the heading, the
     * photo and the pending label (or "Anchor"), joins both the capture state
     * and the floor plan. It needs both current positions and nothing else:
     * the placement state is not consulted.
     */
    method SaveAnchor(photoPath: string, heading: real, anchorId: string, now: int)
      requires Valid()
      modifies this
      ensures Valid()
      ensures var s := old(captureState);
        s.currentPosition.None? || s.currentPosition3d.None? ==>
          captureState == s && currentFloorPlan == old(currentFloorPlan)
      ensures var s := old(captureState);
        s.currentPosition.Some? && s.currentPosition3d.Some? ==>
          var anchor := MapAnchor(anchorId, s.currentPosition.value, s.currentPosition3d.value, heading, photoPath,
                                  s.pendingAnchorLabel.OrElse(FallbackAnchorLabel), now);
          && captureState == s.(anchors := s.anchors + [anchor], anchorPlacementState := Confirmed,
                                pendingAnchorLabel := None)
          && currentFloorPlan == (match old(currentFloorPlan)
                                  case None => None
                                  case Some(plan) => Some(plan.(anchors := plan.anchors + [anchor])))
    {
      var current := captureState;
      if current.currentPosition.None? || current.currentPosition3d.None? {
        return;
      }
      var anchorLabel := match current.pendingAnchorLabel case Some(l) => l case None => FallbackAnchorLabel;
      var anchor := MapAnchor(anchorId, current.currentPosition.value, current.currentPosition3d.value, heading,
                              photoPath, anchorLabel, now);
      captureState := current.(anchors := current.anchors + [anchor], anchorPlacementState := Confirmed,
                               pendingAnchorLabel := None);
      if currentFloorPlan.Some? {
        currentFloorPlan := Some(currentFloorPlan.value.(anchors := currentFloorPlan.value.anchors + [anchor]));
      }
    }

    /** `cancelAnchorPlacement`: leaves the flow and drops the pending label. */
    method CancelAnchorPlacement()
      requires Valid()
      modifies this
      ensures Valid()
      ensures captureState == old(captureState).(anchorPlacementState := NotPlacing, pendingAnchorLabel := None)
      ensures currentFloorPlan == old(currentFloorPlan)
    {
      captureState := captureState.(anchorPlacementState := NotPlacing, pendingAnchorLabel := None);
    }

    /** `finishAnchorPlacement`: leaves the flow. */
    method FinishAnchorPlacement()
      requires Valid()
      modifies this
      ensures Valid()
      ensures captureState == old(captureState).(anchorPlacementState := NotPlacing)
      ensures currentFloorPlan == old(currentFloorPlan)
    {
      captureState := captureState.(anchorPlacementState := NotPlacing);
    }

    // ------------------------------------------------------------ relocalization

    /** `startRelocalization`: targets the anchor, unmatched and without an offset. */
    method StartRelocalization(anchor: MapAnchor)
      requires Valid()
      modifies this
      ensures Valid()
      ensures captureState == old(captureState).(relocalization := RelocalizationStarted(anchor))
      ensures currentFloorPlan == old(currentFloorPlan)
    {
      captureState := captureState.(relocalization := RelocalizationState(true, Some(anchor), false, None, 0.0));
    }

    /** `confirmRelocalization`: computes the offset and rotation that align the device with the target. */
    method ConfirmRelocalization(currentPosition3d: Vector3, heading: real)
      requires Valid()
      modifies this
      ensures Valid()
      ensures var s := old(captureState);
        captureState == s.(relocalization := RelocalizationConfirmed(s.relocalization, currentPosition3d, heading))
      ensures var r := old(captureState).relocalization;
        r.targetAnchor.Some? ==>
          ApplyOffset(captureState.relocalization, Project(currentPosition3d)) == r.targetAnchor.value.position
      ensures currentFloorPlan == old(currentFloorPlan)
    {
      var current := captureState;
      match current.relocalization.targetAnchor {
        case None =>
        case Some(targetAnchor) =>
          var offsetX := targetAnchor.position.x - currentPosition3d.x;
          var offsetY := targetAnchor.position.y - currentPosition3d.z;
          var rotationOffset := targetAnchor.compassHeading - heading;
          captureState := current.(relocalization := current.relocalization.(
            isMatched := true, coordinateOffset := Some(Vector2(offsetX, offsetY)), rotationOffset := rotationOffset));
          ConfirmedOffsetAlignsWithAnchor(current.relocalization, currentPosition3d, heading);
      }
    }

    /** `cancelRelocalization`: back to no relocalization. */
    method CancelRelocalization()
      requires Valid()
      modifies this
      ensures Valid()
      ensures captureState == old(captureState).(relocalization := NoRelocalization)
      ensures currentFloorPlan == old(currentFloorPlan)
    {
      captureState := captureState.(relocalization := NoRelocalization);
    }

    // ------------------------------------------------------------ legacy pins and saving

    /** `addPin`: a pin at the 3D position, projected onto the floor. */
    method AddPin(position3d: Vector3, isOnPlane: bool, pinId: string, now: int)
      requires Valid()
      modifies this
      ensures Valid()
      ensures var s := old(captureState);
        captureState == s.(currentPins := s.currentPins + [NewPin(pinId, position3d, now).(isOnDetectedPlane := isOnPlane)])
      ensures IsProjected(captureState.currentPins[|captureState.currentPins| - 1])
      ensures currentFloorPlan == old(currentFloorPlan)
    {
      var pin := FloorPlanPin(pinId, position3d, Project(position3d), now, None, isOnPlane);
      captureState := captureState.(currentPins := captureState.currentPins + [pin]);
    }

    /** `undoLastPin`: drops the last pin, if any. */
    method UndoLastPin()
      requires Valid()
      modifies this
      ensures Valid()
      ensures var s := old(captureState);
        captureState == s.(currentPins := if s.currentPins == [] then [] else s.currentPins[..|s.currentPins| - 1])
      ensures currentFloorPlan == old(currentFloorPlan)
    {
      var current := captureState;
      if current.currentPins != [] {
        captureState := current.(currentPins := current.currentPins[..|current.currentPins| - 1]);
      }
    }

    /**
     * The plan `saveCurrentPlan` hands to the repository: the current plan
     * with the current pins, their perimeter (from two pins) and area (from
     * three pins on a closed plan), and the heading. Nothing changes here;
     * storing it is the repository's business.
     */
    method SaveCurrentPlan(heading: real) returns (toSave: Option<FloorPlan>)
      requires Valid()
      ensures toSave.Some? <==> currentFloorPlan.Some?
      ensures toSave.Some? ==>
        var plan := currentFloorPlan.value;
        var pins := captureState.currentPins;
        var points := PinPositions(pins);
        toSave.value == plan.(pins := pins,
                              perimeterMeters := if |pins| >= 2 then Some(PC.Perimeter(sqrt, points, plan.isClosed)) else None,
                              areaSquareMeters := if |pins| >= 3 && plan.isClosed then Some(PC.Area(points)) else None,
                              northOffsetDegrees := heading)
    {
      match currentFloorPlan {
        case None =>
          return None;
        case Some(plan) =>
          var pins := captureState.currentPins;
          var points2d := PinPositions(pins);
          var perimeter: Option<real> := None;
          if |pins| >= 2 {
            var p := PC.CalculatePerimeter(sqrt, points2d, plan.isClosed);
            perimeter := Some(p);
          }
          var area: Option<real> := None;
          if |pins| >= 3 && plan.isClosed {
            var a := PC.CalculateArea(points2d);
            area := Some(a);
          }
          return Some(plan.(pins := pins, perimeterMeters := perimeter, areaSquareMeters := area,
                            northOffsetDegrees := heading));
      }
    }

    /**
     * `closePolygon`: from three pins on, the plan is closed with the pins'
     * closed perimeter and area and becomes the current plan once saved;
     * `saved` is the plan handed to the repository.
     */
    method ClosePolygon(heading: real) returns (saved: Option<FloorPlan>)
      requires Valid()
      modifies this
      ensures Valid()
      ensures saved.Some? <==> |captureState.currentPins| >= 3 && old(currentFloorPlan).Some?
      ensures saved.Some? ==>
        var pins := captureState.currentPins;
        var points := PinPositions(pins);
        saved.value == old(currentFloorPlan).value.(pins := pins, perimeterMeters := Some(PC.Perimeter(sqrt, points, true)),
                                                    areaSquareMeters := Some(PC.Area(points)), isClosed := true,
                                                    northOffsetDegrees := heading)
        && currentFloorPlan == saved
      ensures saved.None? ==> currentFloorPlan == old(currentFloorPlan)
      ensures captureState == old(captureState)
    {
      var pins := captureState.currentPins;
      saved := None;
      if |pins| >= 3 {
        var points2d := PinPositions(pins);
        var perimeter := PC.CalculatePerimeter(sqrt, points2d, true);
        var area := PC.CalculateArea(points2d);
        if currentFloorPlan.Some? {
          saved := Some(currentFloorPlan.value.(pins := pins, perimeterMeters := Some(perimeter),
                                                areaSquareMeters := Some(area), isClosed := true,
                                                northOffsetDegrees := heading));
          currentFloorPlan := saved;
        }
      }
    }
  }
}
