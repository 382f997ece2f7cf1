# Floor-plan capture engine of the damper locator, in Dafny

This project models the core of an Android app that maps a room. The user walks
the room's outline with the phone. AR tracking supplies camera positions, and
the app samples them into a walked path. The user marks corners, BLE beacons,
HVAC features and photo anchors along the way. When the user finishes, the app
turns the corners into a floor plan with a perimeter and an area. A second
screen lists the BLE devices in range, strongest first, with a signal gauge.

The model is split by source file:

| Dafny module (file) | source |
|---|---|
| `FloorPlanModels` (`floor_plan_models.dfy`) | the value types of `floorplan/FloorPlanModels.kt` |
| `PolygonCalculator` (`polygon_calculator.dfy`) | `floorplan/PolygonCalculator.kt`: perimeter, Shoelace area, validity, centroid, bounding box, rotation |
| `CaptureRules` (`capture_rules.dfy`) | the rules inside `ui/FloorMapViewModel.kt`, as functions of the capture state |
| `FloorMap` (`floor_map_view_model.dfy`) | the class `FloorMapViewModel` that owns the capture state and the current plan |
| `CaptureScreen` (`floor_map_capture_screen.dfy`) | the decisions of `ui/screens/FloorMapCaptureScreen.kt` |
| `Scanning` (`main_view_model.dfy`) | the device bookkeeping of `ui/MainViewModel.kt` |
| `ScanScreen` (`scan_screen.dfy`) | the `rssiBars` gauge of `ui/screens/ScanScreen.kt` |
| `RealMath`, `Text`, `Optional` | the arithmetic, string and option helpers the others use |

Kotlin `Float` becomes `real`, so rounding is not modelled. Square root is a
function value handed to the view model, constrained by `RealMath.IsSqrt`.
Trigonometry enters only as a `(cos, sin)` pair. The compass heading, the clock
and generated identifiers are parameters. The view models are classes whose
methods replace their state, as the source replaces the value of its state
flows. Each method's `ensures` gives the whole new state in terms of the
functions of `CaptureRules` or `Scanning`. The lemmas beside those functions
state what the source promises: the recording invariant, loop closing, the
corners becoming pins, orientation-independent areas, and the result lists
being the strongest eligible devices.

## Model

| member | source | states |
|---|---|---|
| FloorPlanModels.Project | app/src/main/java/com/example/damperlocator/ui/FloorMapViewModel.kt:89 | a 3D AR position maps to the floor plan as `(x, z)` |
| FloorPlanModels.NewPin | app/src/main/java/com/example/damperlocator/floorplan/FloorPlanModels.kt:25-32 | a new pin carries the projection of its 3D position, no label, and lies on a detected plane by default |
| FloorPlanModels.FeatureTypesAreEnumerated | app/src/main/java/com/example/damperlocator/floorplan/FloorPlanModels.kt:92-101 | the eight feature types are distinct and each sits at its ordinal |
| FloorPlanModels.NewFeature | app/src/main/java/com/example/damperlocator/floorplan/FloorPlanModels.kt:106-116 | a feature's optional fields start empty; type and position are as given |
| FloorPlanModels.NewFloorPlan | app/src/main/java/com/example/damperlocator/floorplan/FloorPlanModels.kt:37-50 | a new plan is empty and open; creation and modification times are the clock; it has no perimeter or area |
| FloorPlanModels.InitialCaptureState | app/src/main/java/com/example/damperlocator/floorplan/FloorPlanModels.kt:55-74 | the initial capture state is idle and holds no path, corners, features, anchors, pins or positions |
| PolygonCalculator.Distance | app/src/main/java/com/example/damperlocator/floorplan/PolygonCalculator.kt:48-52 | Euclidean distance is never negative |
| PolygonCalculator.DistanceSquared | app/src/main/java/com/example/damperlocator/floorplan/PolygonCalculator.kt:48-52 | the distance squared is `dx² + dy²` |
| PolygonCalculator.DistanceSymmetric | app/src/main/java/com/example/damperlocator/floorplan/PolygonCalculator.kt:48-52 | distance is symmetric |
| PolygonCalculator.DistanceZeroIff | app/src/main/java/com/example/damperlocator/floorplan/PolygonCalculator.kt:48-52 | distance is zero exactly for equal points |
| PolygonCalculator.DistanceIs | app/src/main/java/com/example/damperlocator/floorplan/PolygonCalculator.kt:48-52 | the distance is the unique non-negative root of the squared distance |
| PolygonCalculator.Perimeter | app/src/main/java/com/example/damperlocator/floorplan/PolygonCalculator.kt:15-27 | a perimeter is non-negative, and 0 below two points |
| PolygonCalculator.CalculatePerimeter | app/src/main/java/com/example/damperlocator/floorplan/PolygonCalculator.kt:15-27 | the index loop with wrap-around `(i + 1) % n` computes the path length, plus the closing edge when closed |
| PolygonCalculator.ClosedPerimeterAddsWrapEdge | app/src/main/java/com/example/damperlocator/floorplan/PolygonCalculator.kt:19-24 | a closed perimeter is the open one plus the edge from the last point back to the first |
| PolygonCalculator.PathLengthCons | app/src/main/java/com/example/damperlocator/floorplan/PolygonCalculator.kt:15-27 | a path's length is its first edge plus the length of the rest |
| PolygonCalculator.PathLengthReversed | app/src/main/java/com/example/damperlocator/floorplan/PolygonCalculator.kt:15-27 | walking a path backwards gives the same length |
| PolygonCalculator.PerimeterReversed | app/src/main/java/com/example/damperlocator/floorplan/PolygonCalculator.kt:10-14 | the perimeter is the same clockwise or counter-clockwise, open or closed |
| PolygonCalculator.Area | app/src/main/java/com/example/damperlocator/floorplan/PolygonCalculator.kt:33-43 | an area is non-negative, and 0 below three points |
| PolygonCalculator.CalculateArea | app/src/main/java/com/example/damperlocator/floorplan/PolygonCalculator.kt:33-43 | the Shoelace loop with wrap-around computes half the absolute Shoelace sum |
| PolygonCalculator.PathCrossCons | app/src/main/java/com/example/damperlocator/floorplan/PolygonCalculator.kt:37-41 | the Shoelace terms of a path are its first term plus the terms of the rest |
| PolygonCalculator.PathCrossReversed | app/src/main/java/com/example/damperlocator/floorplan/PolygonCalculator.kt:37-41 | reversing a path negates its Shoelace terms |
| PolygonCalculator.CrossAntisymmetric | app/src/main/java/com/example/damperlocator/floorplan/PolygonCalculator.kt:40 | swapping the two points of a Shoelace term negates it |
| PolygonCalculator.AreaReversed | app/src/main/java/com/example/damperlocator/floorplan/PolygonCalculator.kt:29-33 | the area is the same whichever way the outline winds |
| PolygonCalculator.ShoelaceSumRotatedOnce | app/src/main/java/com/example/damperlocator/floorplan/PolygonCalculator.kt:37-41 | starting the outline one point later leaves the Shoelace sum unchanged |
| PolygonCalculator.ShoelaceSumRotated | app/src/main/java/com/example/damperlocator/floorplan/PolygonCalculator.kt:37-41 | starting the outline at any point leaves the Shoelace sum unchanged |
| PolygonCalculator.AreaRotated | app/src/main/java/com/example/damperlocator/floorplan/PolygonCalculator.kt:29-43 | the area does not depend on which corner the outline starts at |
| PolygonCalculator.ValidPolygonEnclosesArea | app/src/main/java/com/example/damperlocator/floorplan/PolygonCalculator.kt:57-60 | a polygon is valid exactly when it has three points or more and encloses more than 0.001 m²; a valid polygon has positive area |
| PolygonCalculator.ValidityIgnoresOrientation | app/src/main/java/com/example/damperlocator/floorplan/PolygonCalculator.kt:57-60 | validity depends neither on the winding nor on the starting corner |
| PolygonCalculator.PathCrossOnLine | app/src/main/java/com/example/damperlocator/floorplan/PolygonCalculator.kt:37-41 | scaled by `b`, the Shoelace terms of points on a line `a·x + b·y = c` telescope to `c·(x₀ − xₙ)` |
| PolygonCalculator.PathCrossOnLineRise | app/src/main/java/com/example/damperlocator/floorplan/PolygonCalculator.kt:37-41 | scaled by `a`, the Shoelace terms of points on a line `a·x + b·y = c` telescope to `c·(yₙ − y₀)` |
| PolygonCalculator.CrossOnLine | app/src/main/java/com/example/damperlocator/floorplan/PolygonCalculator.kt:40 | for two points on a line `a·x + b·y = c`, `b` times their Shoelace term is `c·(x₁ − x₂)` and `a` times it is `c·(y₂ − y₁)` |
| PolygonCalculator.CollinearPointsAreInvalid | app/src/main/java/com/example/damperlocator/floorplan/PolygonCalculator.kt:54-60 | points on any line `a·x + b·y = c` (vertical lines included) enclose no area and never form a valid polygon |
| PolygonCalculator.MinOf | app/src/main/java/com/example/damperlocator/floorplan/PolygonCalculator.kt:96-98 | `minOf` is a lower bound attained by some element |
| PolygonCalculator.MaxOf | app/src/main/java/com/example/damperlocator/floorplan/PolygonCalculator.kt:97-99 | `maxOf` is an upper bound attained by some element |
| PolygonCalculator.GetBoundingBox | app/src/main/java/com/example/damperlocator/floorplan/PolygonCalculator.kt:93-102 | the box contains every point, each side touches a point, and width and height are non-negative; no points give the zero box |
| PolygonCalculator.GetCentroid | app/src/main/java/com/example/damperlocator/floorplan/PolygonCalculator.kt:65-71 | no points give the origin |
| PolygonCalculator.CentroidInBoundingBox | app/src/main/java/com/example/damperlocator/floorplan/PolygonCalculator.kt:62-71 | the centroid used for labelling lies inside the bounding box |
| PolygonCalculator.RotateToNorth | app/src/main/java/com/example/damperlocator/floorplan/PolygonCalculator.kt:77-88 | rotation maps every point and keeps the count |
| PolygonCalculator.RotationByZeroIsIdentity | app/src/main/java/com/example/damperlocator/floorplan/PolygonCalculator.kt:77-88 | a zero north offset leaves the points as they are |
| PolygonCalculator.CrossRotated | app/src/main/java/com/example/damperlocator/floorplan/PolygonCalculator.kt:82-87 | a rotation keeps every Shoelace term |
| PolygonCalculator.PathCrossRotated | app/src/main/java/com/example/damperlocator/floorplan/PolygonCalculator.kt:82-87 | a rotation keeps the Shoelace terms of a path |
| PolygonCalculator.RotationPreservesArea | app/src/main/java/com/example/damperlocator/floorplan/PolygonCalculator.kt:73-88 | aligning a plan with north does not change its area |
| PolygonCalculator.Rectangle | app/src/main/java/com/example/damperlocator/floorplan/PolygonCalculator.kt:10-14 | an axis-aligned room outline has four corners |
| PolygonCalculator.ShoelaceSumOfQuad | app/src/main/java/com/example/damperlocator/floorplan/PolygonCalculator.kt:37-41 | the Shoelace sum of four corners is its four terms, including the closing one |
| PolygonCalculator.PerimeterOfQuad | app/src/main/java/com/example/damperlocator/floorplan/PolygonCalculator.kt:19-25 | the closed perimeter of four corners is its four edges, including the closing one |
| PolygonCalculator.RectangleMeasures | app/src/main/java/com/example/damperlocator/floorplan/PolygonCalculator.kt:15-43 | a `w × h` room has perimeter `2(w + h)` and area `w·h` |
| PolygonCalculator.RectangleRoom | app/src/main/java/com/example/damperlocator/floorplan/PolygonCalculator.kt:15-60 | a 4 m × 3 m room has perimeter 14 m and area 12 m², and is valid |
| CaptureRules.Distance | app/src/main/java/com/example/damperlocator/ui/FloorMapViewModel.kt:335-339 | the view model's private distance agrees with the geometry kernel's in either argument order |
| CaptureRules.RecordingStarted | app/src/main/java/com/example/damperlocator/ui/FloorMapViewModel.kt:88-103 | starting a recording keeps features, anchors, pins, relocalization and anchor placement |
| CaptureRules.StartEstablishesInvariant | app/src/main/java/com/example/damperlocator/ui/FloorMapViewModel.kt:88-103 | a fresh recording starts with a one-point path at the start, nothing walked, and satisfies the recording invariant |
| CaptureRules.PositionUpdated | app/src/main/java/com/example/damperlocator/ui/FloorMapViewModel.kt:197-230 | a position update never changes the recording state, corners, features, anchors, pins or start |
| CaptureRules.PositionUpdateEffect | app/src/main/java/com/example/damperlocator/ui/FloorMapViewModel.kt:197-230 | outside a recording nothing changes; while recording the current position always moves, and the path grows by the new point exactly when the step is at least 15 cm, by exactly that step's length |
| CaptureRules.PathLengthSnoc | app/src/main/java/com/example/damperlocator/ui/FloorMapViewModel.kt:216-218 | appending a point adds the last step to the path length |
| CaptureRules.PositionUpdatePreservesInvariant | app/src/main/java/com/example/damperlocator/ui/FloorMapViewModel.kt:197-230 | position updates keep the recording invariant: the path starts at the start, its samples are at least 15 cm apart, the walked distance is its length, and the distance to start is measured from the current position |
| CaptureRules.PositionUpdateIdempotent | app/src/main/java/com/example/damperlocator/ui/FloorMapViewModel.kt:206-229 | reporting the same position twice has the effect of reporting it once |
| CaptureRules.NearStartMeansWalkedLoop | app/src/main/java/com/example/damperlocator/ui/FloorMapViewModel.kt:235-240 | while recording, "near start" holds exactly when the current position is within 50 cm of the first sample and the walked path is longer than 2 m; then the path has two samples or more |
| CaptureRules.SmoothPath | app/src/main/java/com/example/damperlocator/ui/FloorMapViewModel.kt:344-357 | smoothing keeps the number of points and leaves fewer than three points unchanged |
| CaptureRules.SmoothPathStaysInBoundingBox | app/src/main/java/com/example/damperlocator/ui/FloorMapViewModel.kt:344-357 | every smoothed point lies in the bounding box of the raw path |
| CaptureRules.Closed | app/src/main/java/com/example/damperlocator/ui/FloorMapViewModel.kt:256-263 | closing appends the first point once when there are enough points, and otherwise leaves the list alone |
| CaptureRules.CornerPins | app/src/main/java/com/example/damperlocator/ui/FloorMapViewModel.kt:268-278 | one pin per finalized corner |
| CaptureRules.CornerPinsFollowCorners | app/src/main/java/com/example/damperlocator/ui/FloorMapViewModel.kt:268-278 | each pin sits on its corner at floor height; the first is "Start", the last is "End" when open and unlabelled when closed, and the rest are "Corner i" |
| CaptureRules.FinalPerimeterIsCornerPerimeter | app/src/main/java/com/example/damperlocator/ui/FloorMapViewModel.kt:280-283 | a perimeter is recorded exactly when two corners were marked, and it is the perimeter of the marked corners |
| CaptureRules.FinalAreaIsCornerArea | app/src/main/java/com/example/damperlocator/ui/FloorMapViewModel.kt:285-287 | an area is recorded exactly when a loop of three or more corners is closed, and it is the area of the marked corners |
| CaptureRules.FinalCornersClosing | app/src/main/java/com/example/damperlocator/ui/FloorMapViewModel.kt:255-263 | a closed outline ends where it starts and otherwise repeats the marked corners; an open one is unchanged |
| CaptureRules.RelocalizationStarted | app/src/main/java/com/example/damperlocator/ui/FloorMapViewModel.kt:434-443 | relocalizing towards an anchor starts unmatched with no offset |
| CaptureRules.ConfirmedOffsetAlignsWithAnchor | app/src/main/java/com/example/damperlocator/ui/FloorMapViewModel.kt:448-469 | after confirmation the offset carries the observed position onto the saved anchor, and the heading onto its heading |
| CaptureRules.NoTargetNoOffset | app/src/main/java/com/example/damperlocator/ui/FloorMapViewModel.kt:448-486 | without a target anchor confirmation does nothing, without an offset positions pass through unchanged, and a relocalization just started has no offset yet |
| CaptureRules.ApplyOffset | app/src/main/java/com/example/damperlocator/ui/FloorMapViewModel.kt:483-486 | without an offset a position is unchanged; with one, it moves by exactly the offset in each axis |
| CaptureRules.OffsetPreservesDistances | app/src/main/java/com/example/damperlocator/ui/FloorMapViewModel.kt:483-486 | applying the offset preserves distances between positions |
| CaptureRules.RemoveById | app/src/main/java/com/example/damperlocator/ui/FloorMapViewModel.kt:175-180 | removal keeps exactly the features with another id, and changes nothing when no feature has the id |
| CaptureRules.WithPhoto | app/src/main/java/com/example/damperlocator/ui/FloorMapViewModel.kt:185-192 | a photo update keeps the number of features |
| CaptureRules.WithPhotoEffect | app/src/main/java/com/example/damperlocator/ui/FloorMapViewModel.kt:185-192 | only features with the id get the photo, and the others are untouched; re-attaching the same photo changes nothing |
| CaptureRules.RemoveAfterPhotoUpdate | app/src/main/java/com/example/damperlocator/ui/FloorMapViewModel.kt:175-192 | removing a feature after updating its photo is the same as removing it directly |
| FloorMap.PinPositions | app/src/main/java/com/example/damperlocator/ui/FloorMapViewModel.kt:560 | the points of the pins, in order |
| FloorMap.MeasureCorners | app/src/main/java/com/example/damperlocator/ui/FloorMapViewModel.kt:256-287 | closes the marked corners and measures perimeter and area, as the finalization functions define |
| FloorMap.FloorMapViewModel.constructor | app/src/main/java/com/example/damperlocator/ui/FloorMapViewModel.kt:34-38 | the view model starts with the initial capture state and no plan |
| FloorMap.FloorMapViewModel.StartCapture | app/src/main/java/com/example/damperlocator/ui/FloorMapViewModel.kt:53-64 | continues the existing plan with its pins, or begins "Floor Plan <time>", with an otherwise fresh capture state |
| FloorMap.FloorMapViewModel.StartRecording | app/src/main/java/com/example/damperlocator/ui/FloorMapViewModel.kt:88-103 | the new state is the started recording; the invariant holds |
| FloorMap.FloorMapViewModel.MarkCorner | app/src/main/java/com/example/damperlocator/ui/FloorMapViewModel.kt:108-120 | while recording, the current position (2D and 3D) becomes the next corner; otherwise nothing changes |
| FloorMap.FloorMapViewModel.UpdatePosition | app/src/main/java/com/example/damperlocator/ui/FloorMapViewModel.kt:197-230 | the new state is the position update, and the recording invariant is kept |
| FloorMap.FloorMapViewModel.IsNearStart | app/src/main/java/com/example/damperlocator/ui/FloorMapViewModel.kt:235-240 | near start means within 50 cm of the start after walking more than 2 m |
| FloorMap.FloorMapViewModel.StopRecording | app/src/main/java/com/example/damperlocator/ui/FloorMapViewModel.kt:245-307 | only a recording stops: it completes with the smoothed (and closed) path, closed corners and corner pins, and the plan gets corners, pins, features, anchors, perimeter, area, closedness and heading |
| FloorMap.FloorMapViewModel.ResetRecording | app/src/main/java/com/example/damperlocator/ui/FloorMapViewModel.kt:312-333 | back to the initial capture state; the plan is kept |
| FloorMap.FloorMapViewModel.ShowFeaturePicker | app/src/main/java/com/example/damperlocator/ui/FloorMapViewModel.kt:127-129 | only the picker flag turns on |
| FloorMap.FloorMapViewModel.HideFeaturePicker | app/src/main/java/com/example/damperlocator/ui/FloorMapViewModel.kt:134-136 | only the picker flag turns off |
| FloorMap.FloorMapViewModel.AddFeature | app/src/main/java/com/example/damperlocator/ui/FloorMapViewModel.kt:141-170 | with a known position, a feature at that position is appended and the picker closes; without one nothing changes |
| FloorMap.FloorMapViewModel.RemoveFeature | app/src/main/java/com/example/damperlocator/ui/FloorMapViewModel.kt:175-180 | exactly the features with another id remain |
| FloorMap.FloorMapViewModel.UpdateFeaturePhoto | app/src/main/java/com/example/damperlocator/ui/FloorMapViewModel.kt:185-192 | the features with the id get the photo; nothing else changes |
| FloorMap.FloorMapViewModel.RequestFeaturePhoto | app/src/main/java/com/example/damperlocator/ui/FloorMapViewModel.kt:500-504 | the feature becomes the one awaiting a photo |
| FloorMap.FloorMapViewModel.SaveFeaturePhoto | app/src/main/java/com/example/damperlocator/ui/FloorMapViewModel.kt:509-521 | the awaiting feature gets the photo and nothing awaits any more; with none awaiting nothing changes |
| FloorMap.FloorMapViewModel.CancelFeaturePhoto | app/src/main/java/com/example/damperlocator/ui/FloorMapViewModel.kt:526-530 | nothing awaits a photo any more |
| FloorMap.FloorMapViewModel.StartAnchorPlacement | app/src/main/java/com/example/damperlocator/ui/FloorMapViewModel.kt:364-369 | placement starts positioning with the given label, or with "Doorway" when none is given |
| FloorMap.FloorMapViewModel.ConfirmAnchorPosition | app/src/main/java/com/example/damperlocator/ui/FloorMapViewModel.kt:374-378 | placement moves to capturing |
| FloorMap.FloorMapViewModel.SaveAnchor | app/src/main/java/com/example/damperlocator/ui/FloorMapViewModel.kt:383-410 | with both current positions known, an anchor with the pending label (or "Anchor") is appended to the capture and to the plan, and placement is confirmed; otherwise nothing changes |
| FloorMap.FloorMapViewModel.CancelAnchorPlacement | app/src/main/java/com/example/damperlocator/ui/FloorMapViewModel.kt:415-420 | placement stops and the pending label is dropped |
| FloorMap.FloorMapViewModel.FinishAnchorPlacement | app/src/main/java/com/example/damperlocator/ui/FloorMapViewModel.kt:425-429 | placement stops |
| FloorMap.FloorMapViewModel.StartRelocalization | app/src/main/java/com/example/damperlocator/ui/FloorMapViewModel.kt:434-443 | relocalization starts towards the anchor |
| FloorMap.FloorMapViewModel.ConfirmRelocalization | app/src/main/java/com/example/damperlocator/ui/FloorMapViewModel.kt:448-469 | with a target, the stored offset carries the current position onto the anchor |
| FloorMap.FloorMapViewModel.CancelRelocalization | app/src/main/java/com/example/damperlocator/ui/FloorMapViewModel.kt:474-478 | relocalization is cleared |
| FloorMap.FloorMapViewModel.AddPin | app/src/main/java/com/example/damperlocator/ui/FloorMapViewModel.kt:534-544 | a pin projected from the 3D position is appended |
| FloorMap.FloorMapViewModel.UndoLastPin | app/src/main/java/com/example/damperlocator/ui/FloorMapViewModel.kt:546-553 | the last pin, if any, is removed |
| FloorMap.FloorMapViewModel.ClosePolygon | app/src/main/java/com/example/damperlocator/ui/FloorMapViewModel.kt:555-579 | with three pins or more and a plan, the plan is closed with the pins' closed perimeter and area and the heading, and becomes the current plan; otherwise nothing is saved and the plan is unchanged |
| FloorMap.FloorMapViewModel.SaveCurrentPlan | app/src/main/java/com/example/damperlocator/ui/FloorMapViewModel.kt:585-607 | the plan to persist carries the pins, the perimeter from two pins, the area from three pins of a closed plan, and the heading |
| CaptureScreen.DistanceStep | app/src/main/java/com/example/damperlocator/ui/screens/FloorMapCaptureScreen.kt:157-177 | "back at start" is cued exactly within 50 cm after more than 2 m walked, unless already latched; "approaching" exactly between 50 cm and 2 m, unless latched; a reading 2 m away clears both latches, and nothing else clears them |
| CaptureScreen.LatchPersists | app/src/main/java/com/example/damperlocator/ui/screens/FloorMapCaptureScreen.kt:161-175 | a latch once set stays set until a reading 2 m or more from the start |
| CaptureScreen.ApproachCuesNeedReset | app/src/main/java/com/example/damperlocator/ui/screens/FloorMapCaptureScreen.kt:138-177 | the same approach cue never repeats unless the walker has been at least 2 m away from the start in between |
| CaptureScreen.NoCueOnShortWalk | app/src/main/java/com/example/damperlocator/ui/screens/FloorMapCaptureScreen.kt:161 | no approach cue and no latch change before more than 2 m walked |
| CaptureScreen.CaptureFeedback.constructor | app/src/main/java/com/example/damperlocator/ui/screens/FloorMapCaptureScreen.kt:123-140 | the latches start cleared and the point count at zero |
| CaptureScreen.CaptureFeedback.OnPathPointCountChanged | app/src/main/java/com/example/damperlocator/ui/screens/FloorMapCaptureScreen.kt:148-154 | a point cue exactly when the path grew beyond one sample; the count is remembered |
| CaptureScreen.CaptureFeedback.OnDistanceChanged | app/src/main/java/com/example/damperlocator/ui/screens/FloorMapCaptureScreen.kt:157-177 | the latches and the cue are those of the distance step |
| CaptureScreen.CaptureFeedback.OnPositionUpdate | app/src/main/java/com/example/damperlocator/ui/screens/FloorMapCaptureScreen.kt:291-298 | the camera position is always remembered, and it reaches the view model only while recording |
| CaptureScreen.OnFinishPressed | app/src/main/java/com/example/damperlocator/ui/screens/FloorMapCaptureScreen.kt:564-566 | finishing closes the loop exactly when the view model reports the walker near the start; while recording, the plan gets the final corners as pins and corner points, the capture's features and anchors, the final perimeter and area, the closed flag and the heading; otherwise nothing changes |
| CaptureScreen.StatusText | app/src/main/java/com/example/damperlocator/ui/screens/FloorMapCaptureScreen.kt:758-768 | "READY" exactly when idle, "DONE" exactly when completed, "FINISH!" exactly when recording near the start after more than 2 m, "REC" when recording under 0.5 m walked otherwise, and "MAPPING" exactly when recording after at least 0.5 m and not ready to finish |
| CaptureScreen.FinishShownIffLoopCloses | app/src/main/java/com/example/damperlocator/ui/screens/FloorMapCaptureScreen.kt:758-768 | fed the view model's own test, the header shows "FINISH!" exactly when the finish button would close the loop |
| Scanning.TruncDiv | app/src/main/java/com/example/damperlocator/ui/MainViewModel.kt:360-361 | Kotlin `Int` division truncates toward zero: the remainder has the dividend's sign and is smaller than the divisor |
| Scanning.WindowAverageTruncates | app/src/main/java/com/example/damperlocator/ui/MainViewModel.kt:356-362 | no readings give -100 dBm; otherwise the average is the sum divided by the count, truncated toward zero |
| Scanning.AverageWithinWindow | app/src/main/java/com/example/damperlocator/ui/MainViewModel.kt:356-362 | the average of a non-empty window lies between its weakest and strongest readings |
| Scanning.SumOfBounds | app/src/main/java/com/example/damperlocator/ui/MainViewModel.kt:360 | bounds on the readings bound their sum |
| Scanning.Latest | app/src/main/java/com/example/damperlocator/ui/MainViewModel.kt:349-354 | a window never holds more than five readings |
| Scanning.SlideShape | app/src/main/java/com/example/damperlocator/ui/MainViewModel.kt:349-354 | the new reading comes last, after the newest earlier readings in order; the oldest drops out once five are held |
| Scanning.SlideKeepsLatest | app/src/main/java/com/example/damperlocator/ui/MainViewModel.kt:349-354 | `addRssi` keeps exactly the latest five readings of the whole history |
| Scanning.MergedState | app/src/main/java/com/example/damperlocator/ui/MainViewModel.kt:200-215 | after an advertisement the device state carries the address and time; the advertised name wins over the record's, which wins over the known name; the reading enters the window; the flags only turn on |
| Scanning.EligibleMembers | app/src/main/java/com/example/damperlocator/ui/MainViewModel.kt:246-254 | a row is eligible exactly when it passes the filter and is not a favourite |
| Scanning.FavoriteRowsMembers | app/src/main/java/com/example/damperlocator/ui/MainViewModel.kt:253 | the favourite rows are exactly the active devices with a favourite address, whatever the filter |
| Scanning.InsertDesc | app/src/main/java/com/example/damperlocator/ui/MainViewModel.kt:258 | insertion adds one element |
| Scanning.InsertDescPermutes | app/src/main/java/com/example/damperlocator/ui/MainViewModel.kt:258 | insertion adds exactly the new row |
| Scanning.InsertDescSorted | app/src/main/java/com/example/damperlocator/ui/MainViewModel.kt:258 | insertion keeps a list sorted strongest first |
| Scanning.SortByRssiDescSorts | app/src/main/java/com/example/damperlocator/ui/MainViewModel.kt:258 | `sortedByDescending { averageRssi }` is a permutation, strongest first |
| Scanning.TakeOfSorted | app/src/main/java/com/example/damperlocator/ui/MainViewModel.kt:259 | `take(n)` of a sorted list is a sorted prefix of at most n rows, no weaker than anything left out |
| Scanning.Results | app/src/main/java/com/example/damperlocator/ui/MainViewModel.kt:246-261 | the results hold exactly the eligible rows when there are at most 20, and 20 rows otherwise |
| Scanning.Favorites | app/src/main/java/com/example/damperlocator/ui/MainViewModel.kt:253-264 | the favourites list has one row per active favourite |
| Scanning.ResultsAreStrongestEligible | app/src/main/java/com/example/damperlocator/ui/MainViewModel.kt:246-261 | the results are at most 20 eligible rows, strongest first, none weaker than an eligible row left out, and all of them when there are at most 20 |
| Scanning.FavoritesAreAllActiveFavorites | app/src/main/java/com/example/damperlocator/ui/MainViewModel.kt:253-264 | the favourites list holds every active favourite, and only those, strongest first |
| Scanning.StoredLabelsAfterPut | app/src/main/java/com/example/damperlocator/ui/MainViewModel.kt:157-159 | a stored non-blank label is what the next load reads under its key |
| Scanning.StoredLabelsAfterRemove | app/src/main/java/com/example/damperlocator/ui/MainViewModel.kt:154-156 | a removed label is gone from the next load |
| Scanning.LoadLabels | app/src/main/java/com/example/damperlocator/ui/MainViewModel.kt:375-383 | loading keeps exactly the non-blank string preferences under their keys |
| Scanning.KeepFresh | app/src/main/java/com/example/damperlocator/ui/MainViewModel.kt:233-244 | exactly the devices seen within the last ten seconds stay, in order, each once |
| Scanning.Rows | app/src/main/java/com/example/damperlocator/ui/MainViewModel.kt:256-257 | one row per device, in order, for that device's address |
| Scanning.DropStale | app/src/main/java/com/example/damperlocator/ui/MainViewModel.kt:233-244 | the removal loop keeps exactly the fresh devices, in order, with their states unchanged |
| Scanning.MainViewModel.constructor | app/src/main/java/com/example/damperlocator/ui/MainViewModel.kt:46-54 | the labels are loaded from the store, the filter starts at beacons and no device is known |
| Scanning.MainViewModel.MergeScanResult | app/src/main/java/com/example/damperlocator/ui/MainViewModel.kt:195-216 | an advertisement without a device changes nothing; otherwise its upper-cased address gets the merged state, and a new address joins the order at the end |
| Scanning.MainViewModel.UpdateResults | app/src/main/java/com/example/damperlocator/ui/MainViewModel.kt:231-265 | stale devices are dropped, and the two lists are recomputed from the rest |
| Scanning.MainViewModel.Publish | app/src/main/java/com/example/damperlocator/ui/MainViewModel.kt:246-264 | the results and favourites lists are those of the current rows |
| Scanning.MainViewModel.HandleScanResult | app/src/main/java/com/example/damperlocator/ui/MainViewModel.kt:195-219 | an advertisement without a device is dropped and nothing changes, not even the stale devices or the lists; one with a device gives its upper-cased address the merged state, and a new address joins the order at the end; then exactly the devices seen in the last ten seconds remain, in order, with their merged states, and the lists are recomputed; labels, preferences and filter are unchanged in both cases |
| Scanning.MainViewModel.SetLabel | app/src/main/java/com/example/damperlocator/ui/MainViewModel.kt:150-163 | a blank label removes the key from memory and store; otherwise the trimmed label is stored under the upper-cased address in both; exactly the fresh devices remain, in order and unchanged, and the lists are recomputed |
| Scanning.MainViewModel.SetFilterMode | app/src/main/java/com/example/damperlocator/ui/MainViewModel.kt:145-148 | the filter changes; labels and preferences are unchanged; exactly the fresh devices remain, in order and unchanged, and the lists are recomputed under the new filter |
| ScanScreen.CoerceIn | app/src/main/java/com/example/damperlocator/ui/screens/ScanScreen.kt:208-209 | `coerceIn` clamps into the range and leaves values inside it alone |
| ScanScreen.PadEnd | app/src/main/java/com/example/damperlocator/ui/screens/ScanScreen.kt:210 | `padEnd` keeps the string as a prefix and fills with the pad character up to the width |
| ScanScreen.RssiBars | app/src/main/java/com/example/damperlocator/ui/screens/ScanScreen.kt:207-211 | the gauge is always five characters wide |
| ScanScreen.RssiBarsShape | app/src/main/java/com/example/damperlocator/ui/screens/ScanScreen.kt:207-211 | the gauge is always five characters: `level` bars, then spaces |
| ScanScreen.SignalLevelThresholds | app/src/main/java/com/example/damperlocator/ui/screens/ScanScreen.kt:207-211 | no bar below -88 dBm, one more every 12 dB, five from -40 dBm |
| ScanScreen.InnerClampSuffices | app/src/main/java/com/example/damperlocator/ui/screens/ScanScreen.kt:208-209 | the outer clamp to 0..5 never changes the level |
| ScanScreen.SignalLevelMonotone | app/src/main/java/com/example/damperlocator/ui/screens/ScanScreen.kt:207-211 | a stronger signal never shows fewer bars |
| Text.TrimEmptyIffBlank | app/src/main/java/com/example/damperlocator/ui/MainViewModel.kt:152-154 | a trimmed label is empty exactly when the label was blank |
| Text.Trim | app/src/main/java/com/example/damperlocator/ui/MainViewModel.kt:152 | trimming never lengthens a label |
| Text.TrimEndsNonBlank | app/src/main/java/com/example/damperlocator/ui/MainViewModel.kt:152 | a non-empty trimmed label starts and ends with a non-whitespace character |
| Text.TrimIsFramedSlice | app/src/main/java/com/example/damperlocator/ui/MainViewModel.kt:152 | the trimmed label is the label's own middle, framed by a whitespace-only prefix and suffix |
| Text.TrimIdempotent | app/src/main/java/com/example/damperlocator/ui/MainViewModel.kt:152 | trimming twice trims nothing more |
| Text.Uppercase | app/src/main/java/com/example/damperlocator/ui/MainViewModel.kt:151 | upper-casing maps every character and keeps the length |
| Text.UppercaseIdempotent | app/src/main/java/com/example/damperlocator/ui/MainViewModel.kt:198 | an upper-cased address is its own key |
| Text.NatToString | app/src/main/java/com/example/damperlocator/ui/FloorMapViewModel.kt:58 | the decimal rendering of the clock is a non-empty digit string |
| RealMath.MeanBounds | app/src/main/java/com/example/damperlocator/ui/FloorMapViewModel.kt:352-354 | the mean of values within bounds lies within them |
| RealMath.SumBounds | app/src/main/java/com/example/damperlocator/ui/FloorMapViewModel.kt:352-354 | bounds on the values bound their sum |

## Left out

- Floating point: `Float` arithmetic is modelled on `real`, so no rounding, overflow or NaN is captured. The area threshold of `isValidPolygon` is compared exactly.
- Square root, cosine and sine are not computed. `sqrt` is a parameter constrained to return the non-negative root. `rotateToNorth` takes the cosine and sine of the offset as parameters.
- The compass heading, `System.currentTimeMillis()` and `UUID.randomUUID()` are method parameters. The AR session, camera frames, plane detection and sensors are not modelled.
- Persistence is not modelled. `FloorPlanRepository` is not part of this model: `saveCurrentPlan` and `closePolygon` return the plan they would save. `updateFloorPlanName`, `deleteFloorPlan`, `exportFloorPlan`, `importFloorPlan`, `loadFloorPlan`, `clearCurrentPlan`, `navigateTo`, `stopCapture` and `updateTrackingState` are repository or navigation plumbing and are left out.
- The capture state's AR fields (`isArSessionActive`, `trackingState`, `isPlaneDetected`, pitch, roll, compass heading, error message) are left out. The capture state's anchor, relocalization, 3D-corner and pending-photo fields, the plan's `anchors` list, the `MapAnchor` record and a feature's `position3d` are taken from their uses in `FloorMapViewModel.kt` and `FloorMapCaptureScreen.kt`, because `FloorPlanModels.kt` declares none of them.
- CaptureRules.SmoothPath: only the window size 3 that every caller uses is modelled.
- Scanning.MainViewModel: each `DeviceState` is a value replaced in the map rather than an object updated in place. The states are private to the map, so no aliasing is observable. The map's insertion order is kept as a separate sequence of addresses.
- Scanning.SortByRssiDescSorts: the sort is stable by construction, but stability is not stated as a lemma.
- Scanning.TruncDiv: `Int` overflow of the RSSI sum is not modelled, since five readings of at most a few hundred dBm cannot overflow.
- The Bluetooth scan, connection, GATT identify write, permissions and coroutines of `MainViewModel` are not modelled. An advertisement is represented by its device, name, manufacturer company ids and RSSI.
- `ScanResultUi.kt` declares no `label` field, but `MainViewModel.toUi` passes one. The model includes the field, following the view model.
- Text.Uppercase: upper-casing is modelled for ASCII letters only, which covers hexadecimal BLE addresses.
- FloorMap.FloorMapViewModel.SaveAnchor: `saveAnchor` does not consult `anchorPlacementState` (`FloorMapViewModel.kt:383-410`), so a save without `confirmAnchorPosition` still records the anchor; the model follows the code.
- ClosePolygon (`FloorMap.FloorMapViewModel.ClosePolygon`): the closed plan becomes current at once. The source assigns `_currentFloorPlan` only after the suspending `repository.save` returns (`FloorMapViewModel.kt:573-576`), so the delay, a failed save leaving the plan open, and an update made meanwhile being overwritten are not modelled.
- The capture screen's sounds, vibrations, layout, colours, tutorial overlay and minimap are not modelled. A cue is returned instead of played.
