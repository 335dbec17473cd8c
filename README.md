# LegoHouseBuilder editor core in Dafny

This project models the core of LegoHouseBuilder, a browser editor for placing LEGO-style houses on a
ground plane crossed by roads. The model covers:

- the application record (`appState`): placed house instances keyed by id, the road meshes, the pending
  template, the selected instance and the drag state;
- how an instance is built from its catalog variation: a grass base plate, element bricks and a fence
  with a gate, sorted by build order, plus the rotated footprint box;
- placement validity: the footprint, pulled in by the collision buffer, must miss every other built
  house and every inflated road box;
- the selection rules: at most one pending template or one selected house, never both;
- the four actions (place, unbuild, move, rotate) with their guards, and the state effects of their
  animations, including the end of each timeline;
- the pointer and button handlers;
- what the action buttons and the placed-houses list show.

Rotations are whole quarter turns (`Geometry.Quarter`, 0..3). The source turns by floating-point
multiples of pi/2 through Math.cos, Math.sin and applyAxisAngle; the model uses the exact cosines and
sines of those angles. Positions and sizes are `real`s.

The class invariant is `State.AppState.Consistent`:
- every stored house is a well-formed instance of a catalog variation, stored under its own id;
- at most one house carries `isSelected`, namely the built house `selectedInstanceId` names;
- a pending template and a selected house never coexist;
- a house animates exactly when a timeline is registered for it, and that timeline fits its flags (an
  unbuilt house is only ever building, a built one is unbuilding, moving or rotating).

`Valid` adds `Settled`: no house is unbuilt unless it is building. Every handler preserves `Valid`.

Modules, one per source file: `Constants`, `Geometry`, `Templates`, `LegoUtils`, `InstanceUtils`,
`State`, `ItemKeys`, `Selection`, `Animations`, `Collisions`, `Actions`, `Interactions`, `Ui`, plus
`Wrappers` for `Option`.

Two places where the model departs from the code as written are listed under "## Findings". Each comes
with both a model of the code as written and a corrected version; the rest of the model uses the
corrected version.

## Model

| member | source | states |
|---|---|---|
| Constants.ConstantRelations | js/constants.js:2-27 | brick height is 0.8 units; three plates make a brick; a road is half a plate; a stud is a quarter brick; the collision buffer lies strictly between 0 and half a unit |
| Geometry.FourStepsMakeFullTurn | js/constants.js:24 | four quarter-turn increments bring any rotation back to itself, and the step is injective |
| Geometry.RotationSteps | js/animations.js:141-151 | rotating a brick offset by k+1 quarters equals rotating it by k quarters and then by one; zero quarters is the identity |
| Geometry.RotationPreservesLength | js/animations.js:141-151 | rotating an offset about y keeps its horizontal distance from the centre |
| Geometry.IntersectsProperties | js/collisions.js:23 | the closed-box intersection test is symmetric, and two boxes sharing a point intersect |
| LegoUtils.Round | js/legoUtils.js:66 | Math.round gives the integer r with r - 0.5 <= v < r + 0.5 |
| LegoUtils.SnapToGrid | js/legoUtils.js:64-69 | the snapped point is on the ground, on the unit grid in x and z, and within half a unit of the input |
| LegoUtils.SnapIsIdempotent | js/legoUtils.js:64-69 | snapping a snapped point changes nothing |
| LegoUtils.HalvesRoundUp | js/legoUtils.js:66-67 | halfway coordinates round upward on both sides of zero (2.5 to 3, -2.5 to -2) |
| LegoUtils.CreateLegoBrick | js/legoUtils.js:20-35 | the stud loop produces exactly the stud layout of the brick |
| LegoUtils.StudCount | js/legoUtils.js:21-34 | a brick at least a plate high and not transparent gets width*depth studs; any other brick gets none |
| LegoUtils.StudOrder | js/legoUtils.js:27-30 | for a brick that gets studs, stud (i, j) of the nested loops is at index i*depth+j of the layout |
| LegoUtils.StudGridIsCentred | js/legoUtils.js:24-30 | the stud grid is symmetric about the brick origin and every stud sits on the brick's top |
| LegoUtils.CreateRoadSegment | js/legoUtils.js:50-61 | the road centre keeps the position's x and z and is lifted by half the road height |
| LegoUtils.RoadBoxOfCreatedRoad | js/legoUtils.js:50-56 | a created road's box spans [0, ROAD_HEIGHT] vertically, contains its ground position, and swaps width and length at odd quarter turns |
| LegoUtils.RoadBox | js/collisions.js:31 | a road's world box is centred on the road mesh, ROAD_HEIGHT tall, and width by length at even quarter turns, length by width at odd ones |
| InstanceUtils.SortByBuildOrder | js/instanceUtils.js:74 | the result is sorted by build order and is a permutation of the input |
| InstanceUtils.FenceLoopBound | js/instanceUtils.js:62 | pass i of the front/back fence loop runs (its x is below halfW) exactly when i < baseWidth |
| InstanceUtils.SideLoopBound | js/instanceUtils.js:68 | pass j of the side fence loop runs exactly when j < baseDepth - 2, so the corners are skipped |
| InstanceUtils.CreateAndAddBrick | js/instanceUtils.js:15-42 | the brick keeps its size, colour, stud layout and local offset; its final x and z are the placement plus the offset, its final y is the offset's y raised by a plate for building elements (not for fence or grass), its final yaw is 0 and its build order is its final y |
| InstanceUtils.MakeBrick | js/instanceUtils.js:15-27 | the brick record keeps the given size, colour and local offset, is placed for the placement at rotation 0 (final x, z are placement plus offset, yaw 0, build order equal to final y), and its final y is raised by a plate except for fence and grass |
| InstanceUtils.AddElementBricks | js/instanceUtils.js:48-50 | one brick per variation element, in element order |
| InstanceUtils.AddFenceRows | js/instanceUtils.js:62-67 | for each of the baseWidth columns: a front fence brick unless the column is in the gate, then a back one |
| InstanceUtils.AddSideColumns | js/instanceUtils.js:68-71 | for each inner row: a left fence brick, then a right one |
| InstanceUtils.CreateHouseInstanceData | js/instanceUtils.js:6-88 | the new instance names its template, variation, id and placement, has rotation 0, is unbuilt, idle and unselected, and holds the creation-order bricks sorted by build order |
| InstanceUtils.FenceRowsShape | js/instanceUtils.js:62-67 | every front/back fence brick is placed at rotation 0 without the plate lift, stands on the back row or, outside the gate, on the front row, and lies within the loop's x range |
| InstanceUtils.FenceRowsCover | js/instanceUtils.js:62-67 | every column outside the gate has its front and back fence brick |
| InstanceUtils.SideColumnsShape | js/instanceUtils.js:68-71 | every side fence brick is placed at rotation 0 without the plate lift, on the left or right edge, within the loop's z range |
| InstanceUtils.SideColumnsCover | js/instanceUtils.js:68-71 | every inner row has both its left and its right fence brick |
| InstanceUtils.SideColumnsSkipCorners | js/instanceUtils.js:68 | no side brick lies on the front or back row |
| InstanceUtils.GateBounds | js/instanceUtils.js:53-63 | the gate spans columns -1 up to 2, and a column is fenced exactly when it lies outside that range |
| InstanceUtils.CreationOrderLayout | js/instanceUtils.js:44-71 | creation order is the grass plate of the base size, then one brick per element with final y raised by a plate, then the front/back rows and two bricks per side row; every brick is placed for the placement at rotation 0 |
| InstanceUtils.CreationOrderPlaced | js/instanceUtils.js:44-71 | every brick of the creation order, grass, elements and fence alike, is placed for the placement at rotation 0 |
| InstanceUtils.NewInstanceIsOk | js/instanceUtils.js:6-88 | a freshly created instance is well formed: its variation exists, every brick is placed for its centre and rotation, and the bricks are sorted |
| InstanceUtils.RotatedCornersHull | js/instanceUtils.js:101-106 | every rotated corner lies within the box's x and z extents, and each extent is attained by some corner |
| InstanceUtils.FoldExtents | js/instanceUtils.js:108-114 | the min/max fold over the rotated corners yields exactly the hull of the corners |
| InstanceUtils.GetRotatedBoundingBox | js/instanceUtils.js:92-121 | the box is the footprint's rotated local box (from y 0 to the footprint height), translated to the centre when the world box is asked for |
| InstanceUtils.RotatedBoundingBox | js/instanceUtils.js:92-121 | the box is twice the rotated half-extents wide and deep and the footprint height tall; it is centred horizontally on the centre (world box) or the origin (local box), and its bottom is at the centre's y or at 0 |
| State.StartupRoads | js/main.js:38-40 | start-up creates exactly three roads |
| State.AppState.constructor | js/state.js:15-22 | the initial record is empty, with nothing pending, selected or dragged and the ghost at the origin, and it is valid |
| State.AppState.AddRoadSegment | js/main.js:38-40 | a road is appended to roadSegments |
| State.Startup | js/main.js:38-40 | start-up yields the initial record with the three start-up roads, and it is valid |
| State.AnimationRunningIffTimeline | js/state.js:43-45 | in a consistent record some house animates exactly when some timeline is registered |
| State.AppState.IsAnyAnimationRunning | js/state.js:43-45 | some stored house has isAnimating set (stated over the keys; the source scans the values), and never with no houses |
| State.Truthy | js/selection.js:66 | JavaScript truthiness of an id: null and the empty string are falsy, every other string is truthy |
| State.StoredUnderOwnId | js/actions.js:13-17 | each house is stored under its own id; a flagged house is the selected one and is built |
| State.AtMostOneSelected | js/selection.js:41-63 | two selected houses are the same house |
| State.AddHouseRecord | js/actions.js:13-17 | storing a well-formed, idle, unselected house under a never-issued id keeps the record consistent |
| State.RemoveHouseRecord | js/actions.js:60-62 | removing a house whose unbuild has ended keeps the record consistent, and that house was not selected |
| State.SelectedOnlyWhenSelected | js/selection.js:48 | when id is already the selected house, the flag is already on id alone, so the early return selects it alone |
| State.SelectedOnlyAfterReselect | js/selection.js:51-54 | deselecting the previous house and then flagging id leaves the flag on id alone |
| State.DeselectRecord | js/selection.js:65-78 | clearing the selection keeps the record consistent and settled, and leaves no house flagged |
| State.SelectRecord | js/selection.js:53-60 | flagging a built house as the only selection keeps the record consistent |
| ItemKeys.NatToDecimal | js/ui.js:39 | a printed index is a non-empty run of decimal digits |
| ItemKeys.ItemKey | js/ui.js:39 | the key is the template id, a colon, then a non-empty run of decimal digits |
| ItemKeys.LeadingDigits | js/selection.js:13 | parseInt reads the longest prefix of digits |
| ItemKeys.BeforeColon | js/selection.js:12 | the first split field is the prefix up to the first colon |
| ItemKeys.ParseInt | js/selection.js:13 | parseInt(_, 10): NaN for the empty string, a non-negative number when the text starts with a digit, negative only after a leading minus, and a run of digits reads as its decimal value |
| ItemKeys.ParseItemKey | js/selection.js:12-13 | the template id read from a key is its colon-free prefix; a key without a colon reads as the whole key with a NaN index |
| ItemKeys.ItemKeyRoundTrip | js/selection.js:12-13 | reading back a key written as templateId:index gives the same pair when the template id has no colon |
| ItemKeys.CatalogKeysNameVariations | js/ui.js:34-44 | when no catalog template id contains a colon, every key the template list writes names a catalog variation |
| ItemKeys.ColonInTemplateIdBreaksRoundTrip | js/selection.js:12-13 | with a colon in the template id the key does not read back ("a:b", 0 reads as "a", NaN) |
| Selection.CancelPlacementSelection | js/selection.js:30-39 | the pending template is cleared and nothing else changes |
| Selection.DeselectPlacedHouse | js/selection.js:65-78 | the selected house loses its flag, the selected id is cleared, no house stays flagged, and the set of ids is unchanged |
| Selection.SelectPlacedHouseById | js/selection.js:41-63 | an existing, built, idle house becomes the only selection and the pending template is dropped; any other id changes nothing |
| Selection.MarkSelected | js/selection.js:53-54 | with nothing selected or pending, the built house becomes the selected one and gains the flag, nothing else changes, and the record stays consistent and settled |
| State.AppState.StoreTemplate | js/selection.js:14 | with no house selected, a catalog variation becomes the pending template and the record stays consistent |
| Selection.SelectTemplateByItemKey | js/selection.js:8-28 | for a key that names a catalog variation: ignored while any animation runs; otherwise the houses change only by the deselect (the previously selected house loses its flag), nothing is selected, and the parsed pair becomes the pending template |
| Animations.RetargetKeepsPlacement | js/animations.js:101-108 | retargeting bricks to a new centre or rotation leaves each brick placed for it, keeps final y, offset and build order, and keeps the sort |
| Animations.RetargetBricks | js/animations.js:141-151 | the brick loop writes exactly the retargeted final positions, and the yaw when rotating |
| Animations.MoveKeepsInstanceOk | js/animations.js:84-120 | a started move keeps the instance well formed at its new position with rotation and brick heights unchanged |
| Animations.TurnKeepsInstanceOk | js/animations.js:124-168 | a started rotation keeps the instance well formed at the same position, with every brick's yaw set to the new turn |
| Animations.AnimateBuild | js/animations.js:8-47 | an existing, unbuilt, idle house starts animating under a building timeline; otherwise nothing changes |
| Animations.AnimateUnbuild | js/animations.js:49-82 | an existing, built, idle house is marked unbuilt and animating under an unbuilding timeline; otherwise nothing changes |
| Animations.AnimateMove | js/animations.js:84-121 | an existing, built, idle house takes the new position with its bricks retargeted under a moving timeline; otherwise nothing changes |
| Animations.AnimateRotate | js/animations.js:124-169 | an existing, built, idle house takes the new rotation with its bricks retargeted under a rotating timeline; otherwise nothing changes |
| Collisions.CandidateBox | js/collisions.js:8-14 | the candidate box is the world footprint box pulled in by the buffer on x and z only |
| Collisions.IsPositionValid | js/collisions.js:5-40 | the answer is true exactly when no other built house's box and no inflated road box meets the candidate |
| Collisions.IgnoredHousesDoNotMatter | js/collisions.js:18 | the excluded house and unbuilt houses never affect the answer |
| Collisions.BuiltHouseRejects | js/collisions.js:17-27 | a built, non-excluded house whose box meets the candidate makes the position invalid |
| Collisions.RoadRejects | js/collisions.js:30-37 | a road whose box inflated by 0.1 meets the candidate makes the position invalid |
| Collisions.TouchingFootprintsDoNotBlock | js/collisions.js:11-14 | footprints that only touch along x or z do not collide, because of the buffer |
| Collisions.SideBySideHousesCoexist | js/collisions.js:8-23 | two houses placed face to face along x do not block each other |
| Collisions.SameSpotIsBlocked | js/collisions.js:17-27 | a house cannot be placed exactly where a built house of the same shape stands |
| Collisions.OriginIsBlockedByStartupRoads | js/collisions.js:30-37 | with the start-up roads nothing can be placed at the origin |
| Collisions.ConsistentHousesResolve | js/collisions.js:21 | in a consistent record every stored house resolves to a catalog variation |
| Actions.StoreHouse | js/actions.js:17 | the new house is stored under its never-issued id, which becomes issued; the record stays consistent, every other house stays settled, and the new house can start building |
| Actions.StoreAndBuild | js/actions.js:17-25 | the new house is stored under its unused id and its build starts; the record stays valid |
| Actions.PlaceBuildingAction | js/actions.js:11-36 | a new house is stored under the fresh id and starts building, no other house changes, and the pending template is cleared |
| Actions.NewHouse | js/actions.js:13-25 | the stored house has the chosen template, variation, id and placement, rotation 0, is unbuilt, animating and unselected, and is well formed |
| Actions.UnbuildBuildingAction | js/actions.js:38-70 | a stored idle house is deselected if it was selected, marked unbuilt and starts unbuilding; otherwise nothing changes |
| Actions.MoveBuildingAction | js/actions.js:72-103 | a stored idle house starts moving to the new position without its own collision check; otherwise nothing changes |
| Actions.RotateBuildingAction | js/actions.js:105-145 | a stored idle house starts turning by one quarter when its footprint at the next quarter is valid (excluding itself); otherwise nothing changes |
| Actions.RotateBuildingActionAsWritten | js/actions.js:105-116 | past the guard, the action as written always throws a ReferenceError |
| Actions.CompleteAnimation | js/actions.js:60-62 | at a timeline's end a build leaves the house built and idle, a move or rotate leaves it idle, and an unbuild removes it; the record stays consistent and settled |
| Actions.StopTimeline | js/animations.js:15-17 | the end of a build (and likewise of a move or rotate, lines 93-94 and 133-134) clears isAnimating, sets isBuilt after a build, drops the timeline, and keeps the record consistent and settled |
| Interactions.FirstHittable | js/interactions.js:26-40 | the nearest hit that is built and idle, or none when no hit is |
| Interactions.DropTarget | js/interactions.js:133-134 | the drop target is the ghost position brought down to the ground |
| Interactions.StartDragAsWritten | js/interactions.js:43-49 | pressing on the selected house sets the drag flags and disables the camera controls |
| Interactions.StartDrag | js/interactions.js:43-49 | as written, plus the ghost placed over the house, so the drop target starts at the house's own position |
| Interactions.HandlePointerDown | js/interactions.js:14-82 | while anything animates the record is unchanged. Otherwise: a hit on the selected house starts a drag (controls off, ghost over the house), changing nothing else; a hit on another house selects it, leaving the drag state, controls, ghost and timelines alone; a miss with a pending template places a new house under the fresh id when the snapped point is free at rotation 0, else changes nothing; a miss with nothing pending deselects. Each branch states every field it may change |
| Interactions.PointerDownOnGround | js/interactions.js:58-81 | with a pending template, a snapped ground point free at rotation 0 gets a new house under the fresh id, and otherwise nothing changes; with nothing pending, the selection is cleared |
| Interactions.HandlePointerMove | js/interactions.js:84-124 | while dragging, the ghost follows the snapped point lifted by half the footprint height; a missing drag house is a TypeError with nothing changed |
| Interactions.DropDraggedHouse | js/interactions.js:146-159 | a valid drop to a spot other than the house's position starts the move of an idle house and keeps the selection; any other drop leaves the timelines alone and reselects the house when it is built and idle; the record stays valid |
| Interactions.EndDrag | js/interactions.js:139-161 | once the drop is judged, the drag flags are reset, the controls come back on, the drop takes effect (a move to a new valid spot, otherwise a reselect) and the drag id is cleared |
| Interactions.HandlePointerUp | js/interactions.js:126-171 | a drag of a stored house ends with the drop judged at the ghost's ground position (the house itself excluded), then a move or a reselect, and the drag state reset; a drag without an id is just cleaned up; a dragged id naming no house throws with nothing changed; not dragging changes nothing |
| Interactions.HandleCancelClick | js/interactions.js:173-179 | the pending template is cleared |
| Interactions.HandleRotateClick | js/interactions.js:181-186 | rotate is requested for the selected house |
| Interactions.HandleUnbuildClick | js/interactions.js:188-193 | unbuild is requested for the selected house, which ends deselected |
| Interactions.HandleDoubleTap | js/interactions.js:217-222 | handleDoubleTap rotates the house when the given id is the selected one and otherwise changes nothing (the function is exported, but no source file calls it) |
| Interactions.TapSelectedHouseAsWritten | js/interactions.js:126-159 | pressing and releasing on the selected house without moving moves it to the stale ghost position whenever that spot is valid and different |
| Interactions.TapSelectedHouse | js/interactions.js:126-159 | with the drag start corrected, pressing and releasing on the selected house never moves its ground position |
| Ui.CancelAndInstanceButtonsExclusive | js/ui.js:89-102 | the cancel button and the instance buttons are never visible together; rotate and unbuild show together |
| Ui.InstanceButtonsFollowSelection | js/ui.js:94-100 | the instance buttons are visible exactly when some house is selected |
| Ui.EnabledButtonsPassActionGuard | js/ui.js:95-101 | a visible, enabled rotate or unbuild button means exactly that the action's guard passes |
| Ui.ButtonsFor | js/ui.js:89-102 | cancel shows exactly with a pending template; rotate and unbuild show together exactly when a truthy selected id names a stored house, are always disabled when hidden, and are enabled exactly when that house is built and idle |
| Ui.SettledRowLabels | js/ui.js:69 | in a valid record no row reads "Unbuilt", and a row reads "Built" exactly when a click on it selects the house |
| Ui.StatusLabel | js/ui.js:69 | a row reads "Animating..." exactly while the house animates, "Built" exactly when it is built and idle, and "Unbuilt" exactly when it is unbuilt and idle |
| Ui.StrLtTransitive | js/ui.js:53 | the code-unit order used to sort ids is transitive |
| Ui.StrLtTotal | js/ui.js:53 | any two distinct ids are ordered one way or the other |
| Ui.LeastId | js/ui.js:53 | the least id of a non-empty set precedes every other member |
| Ui.SortedIds | js/ui.js:53 | the ids come out strictly ascending, exactly the stored ids, each once |
| Ui.PlacedHousesRows | js/ui.js:50-87 | an empty record shows the placeholder; otherwise there is one row per house, ascending by id, with its status label and selected flag |
| Ui.ClickListRow | js/ui.js:78-84 | clicking a built, idle house's row selects it; any other row changes nothing |

## Left out

- Rendering, meshes, materials, shadows, highlight boxes, cursors, status text and console logging. These have no effect on the record.
- GSAP tweens, their timing and Math.random delays. A timeline is a map entry, and its end is `Actions.CompleteAnimation`, which a caller may invoke at any time.
- Raycasting. The handlers take the ids under the pointer (nearest first) and the ground point as inputs.
- The uuid generator. `PlaceBuildingAction` takes a fresh, never-issued id as a parameter.
- templates.js. The building catalog is an input (`AppState.catalog`) that no operation changes.
- Floating-point angles and `% (2*PI)`. The source's rotations are floating-point multiples of pi/2, so Math.cos and Math.sin return values such as 6.1e-17 where the exact value is 0. Brick positions and box extents therefore carry rounding errors of about 1e-16, which the model does not represent: it uses exact quarter-turn cosines and sines.
- InstanceUtils.FoldExtents: the source seeds the min/max fold with plus and minus Infinity; the model seeds it with the first corner. The result is the same for the four corners.
- ItemKeys.ParseInt: parseInt's skipping of leading white space is not modelled. Keys are written without spaces.
- Ui.SortedIds: the ids are compared character by character, which equals JavaScript's UTF-16 code-unit order only for ids in the Basic Multilingual Plane (uuids are ASCII).
- createTemplateUI's DOM loop. Only the format of the keys it writes (`ItemKey`) is modelled.
- The colour and visibility of the move ghost in handlePointerMove, including its isPositionValid call. Those only choose the ghost's colour.
- The mobile pointer-move throttle (lastMoveTime) and the touch-on-UI-panel test. No source file detects double taps: the lastTapTime and lastTapId fields of js/state.js:27-28 are never used, and handleDoubleTap (js/interactions.js:217-222) is exported but has no caller. `HandleDoubleTap` models that function on its own, taking the id as a parameter.
- Selection.SelectTemplateByItemKey: requires that the key name a catalog variation. For any other key the source first stores the parsed pair as the pending template (js/selection.js:14) and then throws a TypeError reading the missing template or variation (js/selection.js:22-24); that path is not modelled, because the stored pair would name nothing in the catalog. The keys the template list writes always name a variation provided no catalog template id contains a colon (`ItemKeys.CatalogKeysNameVariations`; `ItemKeys.ColonInTemplateIdBreaksRoundTrip` shows what happens otherwise).
- Interactions.HandlePointerMove and Interactions.HandlePointerUp: the JavaScript TypeError raised when the dragged id names no stored house is modelled as `Threw` with the record unchanged. What the browser does afterwards is not modelled.

## Findings

| source | as written | input that shows it | evidently intended | confidence | as-written member | corrected member |
|---|---|---|---|---|---|---|
| js/actions.js:116 | `C.ROTATION_INCREMENT` is read, but js/actions.js never imports `C` (lines 1-7), so every rotate that passes the guard throws a ReferenceError before validating or animating | any stored, idle house id passed to rotateBuildingAction (the Rotate button) | turn the house by one quarter when the next quarter's footprint is valid | high, not executed | Actions.RotateBuildingActionAsWritten | Actions.RotateBuildingAction |
| js/interactions.js:43-49 | starting a drag on the selected house does not place the move ghost, and pointer-up (lines 133-134) drops the house at the ghost's position. A press and release with no pointer move therefore uses the ghost position left by the previous drag (the origin at start-up, js/threeSetup.js:75-77) | drag house B to a free spot P and release; unbuild B; select house A; press and release on A without moving; A moves to P | a tap with no movement keeps the house where it is (the comments at lines 149-158 expect no position change) | medium, not executed | Interactions.TapSelectedHouseAsWritten | Interactions.TapSelectedHouse |
