/**
 * The parts of the capture screen that decide something: the audio/haptic
 * cues raised while walking (a new path point, approaching the start, back at
 * the start), the status word of the header, the forwarding of camera
 * positions to the view model only while recording, and the finish button,
 * which closes the loop exactly when the view model says the walker is near
 * the start. Sounds and vibrations are represented by the cue returned.
 */
module CaptureScreen {
  import opened Optional
  import opened RealMath
  import opened FloorPlanModels
  import opened CaptureRules
  import FloorMap

  /** Distance from the start, in metres, inside which the walker is approaching it. */
  const ApproachThreshold: real := 2.0

  /** Walked distance, in metres, under which the header still reads "REC". */
  const JustStartedDistance: real := 0.5

  // ---------------------------------------------------------------- cues

  datatype Cue = PointRecorded | ApproachingStart | ReachedStart

  /** The two latches that keep the approach cues from repeating. */
  datatype Latches = Latches(wasNearStart: bool, wasApproaching: bool)

  /** What the distance effect observes: the distance to the start (if known) and the distance walked. */
  datatype Reading = Reading(distanceToStart: Option<real>, distanceTraveled: real)

  /** A new point cue: the path grew, and past its first sample. */
  predicate PointCue(lastPointCount: nat, currentCount: nat) {
    currentCount > lastPointCount && currentCount > 1
  }

  /** The reading that re-arms both latches: far from the start after a real walk. */
  predicate IsReset(r: Reading) {
    r.distanceToStart.Some? && r.distanceTraveled > MinTravelToClose && r.distanceToStart.value >= ApproachThreshold
  }

  /** The distance effect: at most one cue per reading, and the latches after it. */
  function DistanceStep(l: Latches, r: Reading): (result: (Latches, Option<Cue>))
    ensures var (next, cue) := result;
      && (cue == Some(ReachedStart) <==>
            r.distanceToStart.Some? && r.distanceTraveled > MinTravelToClose
            && r.distanceToStart.value < CloseToStartThreshold && !l.wasNearStart)
      && (cue == Some(ApproachingStart) <==>
            r.distanceToStart.Some? && r.distanceTraveled > MinTravelToClose
            && CloseToStartThreshold <= r.distanceToStart.value < ApproachThreshold && !l.wasApproaching)
      && cue != Some(PointRecorded)
    ensures var (next, cue) := result;
      IsReset(r) ==> next == Latches(false, false)
    ensures var (next, cue) := result;
      !IsReset(r) ==> (l.wasNearStart ==> next.wasNearStart) && (l.wasApproaching ==> next.wasApproaching)
    ensures var (next, cue) := result;
      (cue == Some(ReachedStart) ==> next.wasNearStart) && (cue == Some(ApproachingStart) ==> next.wasApproaching)
  {
    match r.distanceToStart
    case None => (l, None)
    case Some(dist) =>
      if r.distanceTraveled <= MinTravelToClose then (l, None)
      else if dist < CloseToStartThreshold && !l.wasNearStart then (l.(wasNearStart := true), Some(ReachedStart))
      else if dist < ApproachThreshold && dist >= CloseToStartThreshold && !l.wasApproaching then
        (l.(wasApproaching := true), Some(ApproachingStart))
      else if dist >= ApproachThreshold then (Latches(false, false), None)
      else (l, None)
  }

  /** The latches after a sequence of readings. */
  function After(l: Latches, readings: seq<Reading>): Latches {
    if readings == [] then l else DistanceStep(After(l, readings[..|readings| - 1]), readings[|readings| - 1]).0
  }

  /** The cue raised by the `i`-th reading of a sequence. */
  function CueAt(l: Latches, readings: seq<Reading>, i: nat): Option<Cue>
    requires i < |readings|
  {
    DistanceStep(After(l, readings[..i]), readings[i]).1
  }

  /** Whether a latch suppresses `cue`. */
  predicate Holds(l: Latches, cue: Cue) {
    match cue
    case ReachedStart => l.wasNearStart
    case ApproachingStart => l.wasApproaching
    case PointRecorded => false
  }

  /** A latch once set stays set through readings that do not re-arm it. */
  lemma {:induction false} LatchPersists(l: Latches, readings: seq<Reading>, i: nat, j: nat, cue: Cue)
    requires i < j <= |readings|
    requires Holds(After(l, readings[..i + 1]), cue)
    requires forall k :: i < k < j ==> !IsReset(readings[k])
    ensures Holds(After(l, readings[..j]), cue)
    decreases j
  {
    if j > i + 1 {
      LatchPersists(l, readings, i, j - 1, cue);
      assert readings[..j][..j - 1] == readings[..j - 1];
      assert readings[..j][j - 1] == readings[j - 1];
    }
  }

  /**
   * The approach cues do not repeat: between two "back at the start" cues
   * (or two "approaching" cues) the walker has been at least two metres away
   * from the start.
   */
  lemma ApproachCuesNeedReset(l: Latches, readings: seq<Reading>, i: nat, j: nat, cue: Cue)
    requires i < j < |readings|
    requires cue == ReachedStart || cue == ApproachingStart
    requires CueAt(l, readings, i) == Some(cue) && CueAt(l, readings, j) == Some(cue)
    ensures exists k :: i < k < j && IsReset(readings[k])
  {
    if forall k :: i < k < j ==> !IsReset(readings[k]) {
      assert readings[..i + 1][..i] == readings[..i];
      assert readings[..i + 1][i] == readings[i];
      LatchPersists(l, readings, i, j, cue);
    }
  }

  /** No approach cue before the walk is longer than two metres. */
  lemma NoCueOnShortWalk(l: Latches, r: Reading)
    requires r.distanceTraveled <= MinTravelToClose
    ensures DistanceStep(l, r) == (l, None)
  {
  }

  /** The screen-local state of the cue effects and the last camera position seen. */
  class CaptureFeedback {
    var lastPointCount: nat
    var wasNearStart: bool
    var wasApproaching: bool
    var currentCameraPosition: Option<Vector3>

    function Latched(): Latches
      reads this
    {
      Latches(wasNearStart, wasApproaching)
    }

    constructor()
      ensures lastPointCount == 0 && !wasNearStart && !wasApproaching && currentCameraPosition == None
    {
      lastPointCount := 0;
      wasNearStart := false;
      wasApproaching := false;
      currentCameraPosition := None;
    }

    /** The path-size effect: cues a new point and remembers the size. */
    method OnPathPointCountChanged(currentCount: nat) returns (cue: Option<Cue>)
      modifies this
      ensures cue == (if PointCue(old(lastPointCount), currentCount) then Some(PointRecorded) else None)
      ensures lastPointCount == currentCount
      ensures Latched() == old(Latched()) && currentCameraPosition == old(currentCameraPosition)
    {
      cue := None;
      if currentCount > lastPointCount && currentCount > 1 {
        cue := Some(PointRecorded);
      }
      lastPointCount := currentCount;
    }

    /** The distance effect: at most one approach cue, latched until the walker moves away again. */
    method OnDistanceChanged(r: Reading) returns (cue: Option<Cue>)
      modifies this
      ensures (Latched(), cue) == DistanceStep(old(Latched()), r)
      ensures lastPointCount == old(lastPointCount) && currentCameraPosition == old(currentCameraPosition)
    {
      cue := None;
      if r.distanceToStart.Some? && r.distanceTraveled > MinTravelToClose {
        var dist := r.distanceToStart.value;
        if dist < CloseToStartThreshold && !wasNearStart {
          cue := Some(ReachedStart);
          wasNearStart := true;
        } else if dist < ApproachThreshold && dist >= CloseToStartThreshold && !wasApproaching {
          cue := Some(ApproachingStart);
          wasApproaching := true;
        } else if dist >= ApproachThreshold {
          wasApproaching := false;
          wasNearStart := false;
        }
      }
    }

    /** Camera positions reach the view model only while recording. */
    method OnPositionUpdate(vm: FloorMap.FloorMapViewModel, position: Vector3)
      requires vm.Valid()
      modifies this, vm
      ensures vm.Valid()
      ensures currentCameraPosition == Some(position)
      ensures old(vm.captureState).recordingState == Recording ==>
        vm.captureState == PositionUpdated(vm.sqrt, old(vm.captureState), position)
      ensures old(vm.captureState).recordingState != Recording ==> vm.captureState == old(vm.captureState)
      ensures vm.currentFloorPlan == old(vm.currentFloorPlan)
      ensures lastPointCount == old(lastPointCount) && Latched() == old(Latched())
    {
      currentCameraPosition := Some(position);
      if vm.captureState.recordingState == Recording {
        vm.UpdatePosition(position);
      }
    }
  }

  /** The finish button: stops the recording, closing the loop exactly when the walker is near the start. */
  method OnFinishPressed(vm: FloorMap.FloorMapViewModel, heading: real, pinIds: nat -> string, now: int)
    requires vm.Valid()
    modifies vm
    ensures vm.Valid()
    ensures var s := old(vm.captureState);
      var closePath := NearStart(s);
      var corners := FinalCorners(s.cornerPoints, closePath);
      s.recordingState == Recording ==>
        vm.captureState == s.(recordingState := Completed, pathPoints := FinalPath(s.pathPoints, closePath),
                              cornerPoints := corners, currentPins := CornerPins(corners, closePath, pinIds, now))
    ensures var s := old(vm.captureState);
      var closePath := NearStart(s);
      var corners := FinalCorners(s.cornerPoints, closePath);
      s.recordingState == Recording ==>
        vm.currentFloorPlan == (match old(vm.currentFloorPlan)
          case None => None
          case Some(plan) => Some(plan.(pins := CornerPins(corners, closePath, pinIds, now), cornerPoints := corners,
                                        features := s.features, anchors := s.anchors,
                                        perimeterMeters := FinalPerimeter(vm.sqrt, s.cornerPoints, closePath),
                                        areaSquareMeters := FinalArea(s.cornerPoints, closePath),
                                        isClosed := closePath, northOffsetDegrees := heading)))
    ensures old(vm.captureState).recordingState != Recording ==>
      vm.captureState == old(vm.captureState) && vm.currentFloorPlan == old(vm.currentFloorPlan)
  {
    var near := vm.IsNearStart();
    vm.StopRecording(near, heading, pinIds, now);
  }

  // ---------------------------------------------------------------- header

  /** The status word of the header. */
  function StatusText(state: RecordingState, isNearStart: bool, distanceTraveled: real): (text: string)
    ensures state == Idle <==> text == "READY"
    ensures state == Completed <==> text == "DONE"
    ensures text == "FINISH!" <==> state == Recording && isNearStart && distanceTraveled > MinTravelToClose
    ensures text == "REC" <==>
      state == Recording && distanceTraveled < JustStartedDistance && !(isNearStart && distanceTraveled > MinTravelToClose)
    ensures text == "MAPPING" <==>
      state == Recording && distanceTraveled >= JustStartedDistance && !(isNearStart && distanceTraveled > MinTravelToClose)
  {
    match state
    case Idle => "READY"
    case Recording =>
      if isNearStart && distanceTraveled > MinTravelToClose then "FINISH!"
      else if distanceTraveled < JustStartedDistance then "REC"
      else "MAPPING"
    case Completed => "DONE"
  }

  /**
   * With the view model's own test as input, the header reads "FINISH!"
   * exactly when the finish button would close the loop.
   */
  lemma FinishShownIffLoopCloses(s: FloorMapCaptureState)
    requires s.recordingState == Recording
    ensures StatusText(s.recordingState, NearStart(s), s.distanceTraveled) == "FINISH!" <==> NearStart(s)
    ensures NearStart(s) ==> StatusText(s.recordingState, NearStart(s), s.distanceTraveled) != "REC"
  {
  }
}
