/**
 * The floor-plan data model: points, pins, features, anchors, the persisted
 * floor plan and the ephemeral capture state, with their default values.
 * Identifiers and timestamps, which the source draws from `UUID.randomUUID()`
 * and `System.currentTimeMillis()` in constructor defaults, are parameters.
 */
module FloorPlanModels {
  import opened Optional

  /** A point tracked in AR session space; `y` is the vertical axis. */
  datatype Vector3 = Vector3(x: real, y: real, z: real)

  /** A point on the floor plane; `y` holds the 3D `z`. */
  datatype Vector2 = Vector2(x: real, y: real)

  /** Planar projection that drops the vertical axis. */
  function Project(p: Vector3): Vector2 {
    Vector2(p.x, p.z)
  }

  datatype FloorPlanPin = FloorPlanPin(
    id: string,
    position3d: Vector3,
    position2d: Vector2,
    placedAtMs: int,
    pinLabel: Option<string>,
    isOnDetectedPlane: bool)

  /** A pin whose 2D position is the projection of its 3D position. */
  ghost predicate IsProjected(pin: FloorPlanPin) {
    pin.position2d == Project(pin.position3d)
  }

  /** `FloorPlanPin(id, position3d, placedAtMs)` with every other argument defaulted. */
  function NewPin(id: string, position3d: Vector3, placedAtMs: int): (pin: FloorPlanPin)
    ensures pin.position2d.x == position3d.x && pin.position2d.y == position3d.z
    ensures IsProjected(pin)
    ensures pin.pinLabel == None && pin.isOnDetectedPlane
  {
    FloorPlanPin(id, position3d, Project(position3d), placedAtMs, None, true)
  }

  /** The kinds of room features, in declaration order. */
  datatype FeatureType = Door | Beacon | Damper | HvacVent | HvacUnit | Thermostat | Photo | Other {

    function DisplayName(): string {
      match this
      case Door => "Door"
      case Beacon => "Beacon"
      case Damper => "Damper"
      case HvacVent => "HVAC Vent"
      case HvacUnit => "HVAC Unit"
      case Thermostat => "Thermostat"
      case Photo => "Photo Point"
      case Other => "Other"
    }

    /** Position of the variant in the enum declaration. */
    function Ordinal(): nat {
      match this
      case Door => 0
      case Beacon => 1
      case Damper => 2
      case HvacVent => 3
      case HvacUnit => 4
      case Thermostat => 5
      case Photo => 6
      case Other => 7
    }
  }

  /** `FeatureType.values()`. */
  const FeatureTypes: seq<FeatureType> :=
    [Door, Beacon, Damper, HvacVent, HvacUnit, Thermostat, Photo, Other]

  /** There are exactly eight feature types, each listed once at its ordinal. */
  lemma FeatureTypesAreEnumerated(t: FeatureType)
    ensures |FeatureTypes| == 8
    ensures t.Ordinal() < 8 && FeatureTypes[t.Ordinal()] == t
    ensures forall i, j :: 0 <= i < j < |FeatureTypes| ==> FeatureTypes[i] != FeatureTypes[j]
  {
  }

  datatype RoomFeature = RoomFeature(
    id: string,
    featureType: FeatureType,
    position: Vector2,
    position3d: Option<Vector3>,
    featureLabel: Option<string>,
    photoPath: Option<string>,
    bleDeviceAddress: Option<string>,
    bleDeviceName: Option<string>,
    notes: Option<string>,
    createdAtMs: int)

  /** `RoomFeature(type = ..., position = ...)` with every other argument defaulted. */
  function NewFeature(id: string, featureType: FeatureType, position: Vector2, createdAtMs: int): (f: RoomFeature)
    ensures f.featureType == featureType && f.position == position
    ensures f.position3d == None && f.featureLabel == None && f.photoPath == None
    ensures f.bleDeviceAddress == None && f.bleDeviceName == None && f.notes == None
  {
    RoomFeature(id, featureType, position, None, None, None, None, None, None, createdAtMs)
  }

  /** A relocalization waypoint: a position, the compass heading and a reference photo. */
  datatype MapAnchor = MapAnchor(
    id: string,
    position: Vector2,
    position3d: Vector3,
    compassHeading: real,
    photoPath: string,
    anchorLabel: string,
    createdAtMs: int)

  datatype FloorPlan = FloorPlan(
    id: string,
    name: string,
    createdAtMs: int,
    modifiedAtMs: int,
    pins: seq<FloorPlanPin>,
    cornerPoints: seq<Vector2>,
    features: seq<RoomFeature>,
    anchors: seq<MapAnchor>,
    northOffsetDegrees: real,
    referenceFloorY: real,
    perimeterMeters: Option<real>,
    areaSquareMeters: Option<real>,
    isClosed: bool)

  /** `FloorPlan(name = ...)` with every other argument defaulted. */
  function NewFloorPlan(id: string, name: string, now: int): (plan: FloorPlan)
    ensures plan.name == name && plan.createdAtMs == now && plan.modifiedAtMs == now
    ensures plan.pins == [] && plan.cornerPoints == [] && plan.features == [] && plan.anchors == []
    ensures plan.perimeterMeters == None && plan.areaSquareMeters == None
    ensures !plan.isClosed && plan.northOffsetDegrees == 0.0 && plan.referenceFloorY == 0.0
  {
    FloorPlan(id, name, now, now, [], [], [], [], 0.0, 0.0, None, None, false)
  }

  datatype RecordingState = Idle | Recording | Completed

  /** The anchor-placement sub-flow; `NotPlacing` is the source's `NONE`. */
  datatype AnchorPlacementState = NotPlacing | Positioning | Capturing | Confirmed

  datatype RelocalizationState = RelocalizationState(
    isRelocalizing: bool,
    targetAnchor: Option<MapAnchor>,
    isMatched: bool,
    coordinateOffset: Option<Vector2>,
    rotationOffset: real)

  /** `RelocalizationState()`: not relocalizing, no target, no offset. */
  const NoRelocalization := RelocalizationState(false, None, false, None, 0.0)

  /** The capture state owned by the floor-map view model. */
  datatype FloorMapCaptureState = FloorMapCaptureState(
    currentPins: seq<FloorPlanPin>,
    recordingState: RecordingState,
    pathPoints: seq<Vector2>,
    cornerPoints: seq<Vector2>,
    cornerPoints3d: seq<Vector3>,
    features: seq<RoomFeature>,
    anchors: seq<MapAnchor>,
    distanceTraveled: real,
    startPosition: Option<Vector2>,
    startPosition3d: Option<Vector3>,
    distanceToStart: Option<real>,
    currentPosition: Option<Vector2>,
    currentPosition3d: Option<Vector3>,
    showFeaturePicker: bool,
    anchorPlacementState: AnchorPlacementState,
    pendingAnchorLabel: Option<string>,
    relocalization: RelocalizationState,
    pendingFeaturePhotoId: Option<string>)

  /** `FloorMapCaptureState()` with every argument defaulted. */
  function InitialCaptureState(): (s: FloorMapCaptureState)
    ensures s.recordingState == Idle
    ensures s.pathPoints == [] && s.cornerPoints == [] && s.cornerPoints3d == [] && s.features == []
    ensures s.anchors == [] && s.currentPins == []
    ensures s.distanceTraveled == 0.0
    ensures s.startPosition == None && s.currentPosition == None && s.distanceToStart == None
    ensures !s.showFeaturePicker && s.anchorPlacementState == NotPlacing
    ensures s.relocalization == NoRelocalization && s.pendingFeaturePhotoId == None
  {
    FloorMapCaptureState([], Idle, [], [], [], [], [], 0.0, None, None, None, None, None,
                         false, NotPlacing, None, NoRelocalization, None)
  }
}
