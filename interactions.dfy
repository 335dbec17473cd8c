/**
 * The decision logic of the pointer and button handlers (js/interactions.js).
 * The ray casts become inputs: the instance ids under the pointer, nearest
 * first, and the ground point under it, if any. A handler that would throw
 * a TypeError returns Threw and leaves the record as it was.
 */
module Interactions {
  import opened Wrappers
  import opened Geometry
  import opened Templates
  import opened LegoUtils
  import opened InstanceUtils
  import opened State
  import opened Collisions
  import opened Animations
  import opened Selection
  import opened Actions

  /** Only built, idle houses take part in the hit test. */
  predicate Hittable(houses: map<InstanceId, Instance>, id: InstanceId) {
    id in houses && houses[id].isBuilt && !houses[id].isAnimating
  }

  /** The first hittable house among the ids under the pointer, nearest first. */
  function FirstHittable(houses: map<InstanceId, Instance>, hits: seq<InstanceId>): (r: Option<InstanceId>)
    ensures r.None? <==> forall i :: 0 <= i < |hits| ==> !Hittable(houses, hits[i])
    ensures r.Some? ==> Hittable(houses, r.value)
    ensures r.Some? ==>
      exists i :: 0 <= i < |hits| && hits[i] == r.value && (forall j :: 0 <= j < i ==> !Hittable(houses, hits[j]))
  {
    if hits == [] then None
    else if Hittable(houses, hits[0]) then Some(hits[0])
    else
      var r := FirstHittable(houses, hits[1..]);
      assert forall i :: 1 <= i < |hits| ==> hits[i] == hits[1..][i - 1];
      r
  }

  /** Where pointer-up drops the dragged house: the ghost's position brought down to the ground. */
  function DropTarget(g: Vec3): (p: Vec3)
    ensures p.y == 0.0 && p.x == g.x && p.z == g.z
  {
    Vec3(g.x, 0.0, g.z)
  }

  /**
   * The drag-start branch of handlePointerDown as written: the drag flags are set and the
   * controls switched off, but the ghost stays wherever the last pointer-move of an earlier
   * drag left it (the origin before any drag).
   */
  method StartDragAsWritten(s: AppState, id: InstanceId)
    modifies s`isDragging, s`dragInstanceId, s`controlsEnabled
    ensures s.isDragging && s.dragInstanceId == Some(id) && !s.controlsEnabled
  {
    s.isDragging := true;
    s.dragInstanceId := Some(id);
    s.controlsEnabled := false;
  }

  /**
   * The drag start with the ghost put on the dragged house's own cell, lifted as pointer-move
   * lifts it, so that a release without any pointer-move drops the house where it stands.
   */
  method StartDrag(s: AppState, id: InstanceId)
    requires s.Consistent() && id in s.placedHouses
    modifies s`isDragging, s`dragInstanceId, s`controlsEnabled, s`ghostPosition
    ensures s.isDragging && s.dragInstanceId == Some(id) && !s.controlsEnabled
    ensures var inst := s.placedHouses[id];
      && DropTarget(s.ghostPosition) == DropTarget(inst.position)
      && s.ghostPosition.y == FootprintHeight(VariationOf(s.catalog, inst.templateId, inst.variationIndex)) / 2.0
  {
    s.isDragging := true;
    s.dragInstanceId := Some(id);
    s.controlsEnabled := false;
    var instance := s.placedHouses[id];
    var height := FootprintHeight(s.catalog[instance.templateId][instance.variationIndex]);
    s.ghostPosition := Vec3(instance.position.x, height / 2.0, instance.position.z);
  }

  /**
   * handlePointerDown: ignored while anything animates. A hit on the selected house starts a
   * drag, a hit on another house selects it; a miss with a pending template places it at the
   * snapped ground point when the spot is free at rotation 0; a miss with nothing pending
   * deselects. freshId is the id uuid.v4 would hand out.
   */
  method HandlePointerDown(s: AppState, rayHits: seq<InstanceId>, groundPoint: Option<Vec3>, freshId: InstanceId)
    requires s.Valid() && freshId != "" && freshId !in s.issuedIds
    modifies s`placedHouses, s`timelines, s`issuedIds, s`selectedTemplateInfo, s`selectedInstanceId
    modifies s`isDragging, s`dragInstanceId, s`controlsEnabled, s`ghostPosition
    ensures s.Valid()
    ensures old(s.IsAnyAnimationRunning()) ==> unchanged(s)
    ensures !old(s.IsAnyAnimationRunning()) ==>
      match FirstHittable(old(s.placedHouses), rayHits)
      case Some(id) =>
        && s.timelines == old(s.timelines) && s.issuedIds == old(s.issuedIds)
        && if old(s.selectedInstanceId) == Some(id) then
          && s.isDragging && s.dragInstanceId == Some(id) && !s.controlsEnabled
          && DropTarget(s.ghostPosition) == DropTarget(old(s.placedHouses)[id].position)
          && s.ghostPosition.y == FootprintHeight(VariationOf(s.catalog, old(s.placedHouses)[id].templateId, old(s.placedHouses)[id].variationIndex)) / 2.0
          && s.placedHouses == old(s.placedHouses) && s.selectedInstanceId == old(s.selectedInstanceId)
          && s.selectedTemplateInfo == old(s.selectedTemplateInfo)
        else
          && s.placedHouses == SelectedOnly(old(s.placedHouses), id) && s.selectedInstanceId == Some(id)
          && s.selectedTemplateInfo == None && s.isDragging == old(s.isDragging)
          && s.dragInstanceId == old(s.dragInstanceId) && s.controlsEnabled == old(s.controlsEnabled)
          && s.ghostPosition == old(s.ghostPosition)
      case None =>
        && s.isDragging == old(s.isDragging) && s.dragInstanceId == old(s.dragInstanceId)
        && s.controlsEnabled == old(s.controlsEnabled) && s.ghostPosition == old(s.ghostPosition)
        && match old(s.selectedTemplateInfo)
           case Some(t) =>
             && s.selectedInstanceId == old(s.selectedInstanceId)
             && if groundPoint.Some? &&
                PositionValid(s.catalog, old(s.placedHouses), old(s.roadSegments), SnapToGrid(groundPoint.value), 0, None, t.id, t.index)
             then
               && s.placedHouses == old(s.placedHouses)[freshId := NewHouse(s.catalog, t.id, t.index, freshId, SnapToGrid(groundPoint.value))]
               && s.timelines == old(s.timelines)[freshId := Building] && s.selectedTemplateInfo == None
               && s.issuedIds == old(s.issuedIds) + {freshId}
             else
               && s.placedHouses == old(s.placedHouses) && s.timelines == old(s.timelines)
               && s.selectedTemplateInfo == old(s.selectedTemplateInfo) && s.issuedIds == old(s.issuedIds)
           case None =>
             && s.placedHouses == Deselected(old(s.placedHouses), old(s.selectedInstanceId))
             && s.selectedInstanceId == None && NoneSelected(s.placedHouses)
             && s.timelines == old(s.timelines) && s.selectedTemplateInfo == None && s.issuedIds == old(s.issuedIds)
  {
    if s.IsAnyAnimationRunning() {
      return;
    }
    var hit := FirstHittable(s.placedHouses, rayHits);
    if hit.Some? {
      var instanceId := hit.value;
      if s.selectedInstanceId == Some(instanceId) {
        StartDrag(s, instanceId);
      } else {
        SelectPlacedHouseById(s, instanceId);
      }
      return;
    }
    PointerDownOnGround(s, groundPoint, freshId);
  }

  /** handlePointerDown when the ray hits no house: a pending template is placed at the snapped
      ground point when that spot is free at rotation 0; with nothing pending, the selection is
      cleared. */
  method PointerDownOnGround(s: AppState, groundPoint: Option<Vec3>, freshId: InstanceId)
    requires s.Valid() && freshId != "" && freshId !in s.issuedIds
    modifies s`placedHouses, s`timelines, s`issuedIds, s`selectedTemplateInfo, s`selectedInstanceId
    ensures s.Valid()
    ensures match old(s.selectedTemplateInfo)
      case Some(t) =>
        && s.selectedInstanceId == old(s.selectedInstanceId)
        && if groundPoint.Some? &&
              PositionValid(s.catalog, old(s.placedHouses), old(s.roadSegments), SnapToGrid(groundPoint.value), 0, None, t.id, t.index)
           then
             && s.placedHouses == old(s.placedHouses)[freshId := NewHouse(s.catalog, t.id, t.index, freshId, SnapToGrid(groundPoint.value))]
             && s.timelines == old(s.timelines)[freshId := Building] && s.selectedTemplateInfo == None
             && s.issuedIds == old(s.issuedIds) + {freshId}
           else
             && s.placedHouses == old(s.placedHouses) && s.timelines == old(s.timelines)
             && s.selectedTemplateInfo == old(s.selectedTemplateInfo) && s.issuedIds == old(s.issuedIds)
      case None =>
        && s.placedHouses == Deselected(old(s.placedHouses), old(s.selectedInstanceId))
        && s.selectedInstanceId == None && NoneSelected(s.placedHouses)
        && s.timelines == old(s.timelines) && s.selectedTemplateInfo == None && s.issuedIds == old(s.issuedIds)
  {
    if s.selectedTemplateInfo.Some? {
      if groundPoint.Some? {
        var templateId := s.selectedTemplateInfo.value.id;
        var variationIndex := s.selectedTemplateInfo.value.index;
        var placementPosition := SnapToGrid(groundPoint.value);
        ConsistentHousesResolve(s);
        var valid := IsPositionValid(s, placementPosition, 0, None, templateId, variationIndex);
        if valid {
          PlaceBuildingAction(s, templateId, variationIndex, placementPosition, freshId);
        }
      }
    } else {
      DeselectPlacedHouse(s);
    }
  }

  /**
   * handlePointerMove: while a drag with a truthy id is on and the pointer is over the ground,
   * the ghost goes to the snapped point, lifted to half the house's height. A drag id that no
   * longer names a house makes the handler throw.
   */
  method HandlePointerMove(s: AppState, groundPoint: Option<Vec3>) returns (outcome: Outcome)
    requires s.Consistent()
    modifies s`ghostPosition
    ensures outcome.Threw? <==>
      s.isDragging && Truthy(s.dragInstanceId) && groundPoint.Some? && s.dragInstanceId.value !in s.placedHouses
    ensures if s.isDragging && Truthy(s.dragInstanceId) && groundPoint.Some? && s.dragInstanceId.value in s.placedHouses then
        var inst := s.placedHouses[s.dragInstanceId.value];
        && Vec3(s.ghostPosition.x, 0.0, s.ghostPosition.z) == SnapToGrid(groundPoint.value)
        && s.ghostPosition.y == FootprintHeight(VariationOf(s.catalog, inst.templateId, inst.variationIndex)) / 2.0
      else s.ghostPosition == old(s.ghostPosition)
  {
    if !s.isDragging || !Truthy(s.dragInstanceId) {
      return Returned;
    }
    if groundPoint.None? {
      return Returned;
    }
    var dragId := s.dragInstanceId.value;
    if dragId !in s.placedHouses {
      return Threw("TypeError");
    }
    var instance := s.placedHouses[dragId];
    var targetPosition := SnapToGrid(groundPoint.value);
    var height := FootprintHeight(s.catalog[instance.templateId][instance.variationIndex]);
    s.ghostPosition := Vec3(targetPosition.x, height / 2.0, targetPosition.z);
    return Returned;
  }

  /**
   * What ending a drag of house id at target does to the record, given whether the drop was judged
   * valid: a valid drop to a new spot starts the move of an idle house (and changes nothing for a
   * busy one) with the selection kept; any other drop leaves the timelines alone and selects the
   * house again when it is built and idle.
   */
  predicate DropEffect(houses: map<InstanceId, Instance>, timelines: map<InstanceId, Animation>,
                       template: Option<TemplateRef>, selected: Option<InstanceId>,
                       id: InstanceId, target: Vec3, isValid: bool,
                       houses': map<InstanceId, Instance>, timelines': map<InstanceId, Animation>,
                       template': Option<TemplateRef>, selected': Option<InstanceId>)
    requires id in houses
  {
    var inst := houses[id];
    if isValid && target != inst.position then
      && template' == template && selected' == selected
      && if !inst.isAnimating then houses' == houses[id := MovedTo(inst, target)] && timelines' == timelines[id := Moving]
         else houses' == houses && timelines' == timelines
    else
      && timelines' == timelines
      && if CanAnimate(houses, id, true) then houses' == SelectedOnly(houses, id) && selected' == Some(id) && template' == None
         else houses' == houses && selected' == selected && template' == template
  }

  /**
   * The end of a drag of house id, once the drop has been judged: a valid drop to a new spot
   * starts the move, anything else selects the house again.
   */
  method DropDraggedHouse(s: AppState, id: InstanceId, target: Vec3, isValid: bool)
    requires s.Valid() && id in s.placedHouses
    modifies s`placedHouses, s`timelines, s`selectedTemplateInfo, s`selectedInstanceId
    ensures s.Valid()
    ensures DropEffect(old(s.placedHouses), old(s.timelines), old(s.selectedTemplateInfo), old(s.selectedInstanceId),
                       id, target, isValid,
                       s.placedHouses, s.timelines, s.selectedTemplateInfo, s.selectedInstanceId)
  {
    var instance := s.placedHouses[id];
    if isValid && target != instance.position {
      MoveBuildingAction(s, Some(id), target);
    } else {
      SelectPlacedHouseById(s, id);
    }
  }

  /** The body of handlePointerUp for a drag of a stored house, once the drop at target has been
      judged: the drag flags are reset and the drop takes effect. */
  method EndDrag(s: AppState, id: InstanceId, target: Vec3, isValid: bool)
    requires s.Valid() && s.dragInstanceId == Some(id) && id in s.placedHouses
    modifies s`placedHouses, s`timelines, s`selectedTemplateInfo, s`selectedInstanceId
    modifies s`isDragging, s`dragInstanceId, s`controlsEnabled
    ensures s.Valid()
    ensures !s.isDragging && s.dragInstanceId == None && s.controlsEnabled
    ensures DropEffect(old(s.placedHouses), old(s.timelines), old(s.selectedTemplateInfo), old(s.selectedInstanceId),
                       id, target, isValid, s.placedHouses, s.timelines, s.selectedTemplateInfo, s.selectedInstanceId)
  {
    s.isDragging := false;
    s.controlsEnabled := true;
    DropDraggedHouse(s, id, target, isValid);
    s.dragInstanceId := None;
  }

  /**
   * handlePointerUp: a drag with a truthy id ends. The house moves to the drop target when that
   * spot is free at its rotation (the house itself excluded) and differs from where it stands;
   * otherwise it is selected again. Controls come back on and the drag id is cleared. A drag
   * without an id is just cleaned up. A drag id that no longer names a house makes the handler
   * throw before anything changes.
   */
  method HandlePointerUp(s: AppState) returns (outcome: Outcome)
    requires s.Valid()
    modifies s`placedHouses, s`timelines, s`selectedTemplateInfo, s`selectedInstanceId
    modifies s`isDragging, s`dragInstanceId, s`controlsEnabled
    ensures s.Valid()
    ensures outcome.Threw? <==> old(s.isDragging && Truthy(s.dragInstanceId) && s.dragInstanceId.value !in s.placedHouses)
    ensures outcome.Threw? || !old(s.isDragging) ==>
      && s.placedHouses == old(s.placedHouses) && s.timelines == old(s.timelines)
      && s.selectedTemplateInfo == old(s.selectedTemplateInfo) && s.selectedInstanceId == old(s.selectedInstanceId)
      && s.isDragging == old(s.isDragging) && s.dragInstanceId == old(s.dragInstanceId)
      && s.controlsEnabled == old(s.controlsEnabled)
    ensures outcome.Returned? && old(s.isDragging) ==> !s.isDragging && s.dragInstanceId == None && s.controlsEnabled
    ensures old(s.isDragging && !Truthy(s.dragInstanceId)) ==>
      && s.placedHouses == old(s.placedHouses) && s.timelines == old(s.timelines)
      && s.selectedTemplateInfo == old(s.selectedTemplateInfo) && s.selectedInstanceId == old(s.selectedInstanceId)
    ensures old(s.isDragging && Truthy(s.dragInstanceId) && s.dragInstanceId.value in s.placedHouses) ==>
      var id := old(s.dragInstanceId.value);
      var inst := old(s.placedHouses)[id];
      var target := DropTarget(old(s.ghostPosition));
      DropEffect(old(s.placedHouses), old(s.timelines), old(s.selectedTemplateInfo), old(s.selectedInstanceId),
                 id, target,
                 PositionValid(s.catalog, old(s.placedHouses), old(s.roadSegments), target, inst.rotation, Some(id),
                               inst.templateId, inst.variationIndex),
                 s.placedHouses, s.timelines, s.selectedTemplateInfo, s.selectedInstanceId)
  {
    if s.isDragging && Truthy(s.dragInstanceId) {
      var dragId := s.dragInstanceId.value;
      if dragId !in s.placedHouses {
        return Threw("TypeError");
      }
      var instance := s.placedHouses[dragId];
      var finalTargetPosition := DropTarget(s.ghostPosition);
      ConsistentHousesResolve(s);
      var isValid := IsPositionValid(s, finalTargetPosition, instance.rotation, s.dragInstanceId,
                                     instance.templateId, instance.variationIndex);
      EndDrag(s, dragId, finalTargetPosition, isValid);
    } else if s.isDragging {
      s.isDragging := false;
      s.dragInstanceId := None;
      s.controlsEnabled := true;
    }
    return Returned;
  }

  /** handleCancelClick: a pending template is dropped; nothing else changes. */
  method HandleCancelClick(s: AppState)
    requires s.Valid()
    modifies s`selectedTemplateInfo
    ensures s.selectedTemplateInfo == None
    ensures s.Valid()
  {
    if s.selectedTemplateInfo.Some? {
      CancelPlacementSelection(s);
    }
  }

  /** handleRotateClick: with a truthy selected id, the selected house is rotated a quarter turn
      when it is idle and the turned footprint is free; otherwise nothing changes. */
  method HandleRotateClick(s: AppState)
    requires s.Valid()
    modifies s`placedHouses, s`timelines
    ensures s.Valid()
    ensures var id := old(s.selectedInstanceId);
      if Truthy(id) && ActionGuard(old(s.placedHouses), id) &&
         (var inst := old(s.placedHouses)[id.value];
          PositionValid(s.catalog, old(s.placedHouses), old(s.roadSegments), inst.position,
                        NextQuarter(inst.rotation), id, inst.templateId, inst.variationIndex)) then
        && s.placedHouses == old(s.placedHouses)[id.value := TurnedTo(old(s.placedHouses)[id.value], NextQuarter(old(s.placedHouses)[id.value].rotation))]
        && s.timelines == old(s.timelines)[id.value := Rotating]
      else s.placedHouses == old(s.placedHouses) && s.timelines == old(s.timelines)
  {
    if Truthy(s.selectedInstanceId) {
      RotateBuildingAction(s, s.selectedInstanceId);
    }
  }

  /** handleUnbuildClick: with a truthy selected id naming an idle house, that house is deselected
      and starts unbuilding; otherwise nothing changes. */
  method HandleUnbuildClick(s: AppState)
    requires s.Valid()
    modifies s`placedHouses, s`timelines, s`selectedInstanceId
    ensures s.Valid()
    ensures var id := old(s.selectedInstanceId);
      if ActionGuard(old(s.placedHouses), id) then
        var h := Deselected(old(s.placedHouses), id);
        && s.placedHouses == h[id.value := h[id.value].(isAnimating := true, isBuilt := false)]
        && s.timelines == old(s.timelines)[id.value := Unbuilding]
        && s.selectedInstanceId == None && NoneSelected(s.placedHouses)
      else
        && s.placedHouses == old(s.placedHouses) && s.timelines == old(s.timelines)
        && s.selectedInstanceId == old(s.selectedInstanceId)
  {
    if Truthy(s.selectedInstanceId) {
      UnbuildBuildingAction(s, s.selectedInstanceId);
    }
  }

  /** handleDoubleTap: a double tap on the selected house rotates it like the rotate button;
      a double tap elsewhere changes nothing. */
  method HandleDoubleTap(s: AppState, id: Option<InstanceId>)
    requires s.Valid()
    modifies s`placedHouses, s`timelines
    ensures s.Valid()
    ensures if s.selectedInstanceId == id && ActionGuard(old(s.placedHouses), id) &&
               (var inst := old(s.placedHouses)[id.value];
                PositionValid(s.catalog, old(s.placedHouses), old(s.roadSegments), inst.position,
                              NextQuarter(inst.rotation), id, inst.templateId, inst.variationIndex)) then
        && s.placedHouses == old(s.placedHouses)[id.value := TurnedTo(old(s.placedHouses)[id.value], NextQuarter(old(s.placedHouses)[id.value].rotation))]
        && s.timelines == old(s.timelines)[id.value := Rotating]
      else s.placedHouses == old(s.placedHouses) && s.timelines == old(s.timelines)
  {
    if s.selectedInstanceId == id {
      RotateBuildingAction(s, id);
    }
  }

  /**
   * A press on the selected house released without any pointer-move in between, with the drag
   * start as written: whenever the stale ghost spot is free for the house and is not where it
   * stands, the house is moved there.
   */
  method TapSelectedHouseAsWritten(s: AppState, id: InstanceId) returns (outcome: Outcome)
    requires s.Valid() && id in s.placedHouses
    modifies s`placedHouses, s`timelines, s`selectedTemplateInfo, s`selectedInstanceId
    modifies s`isDragging, s`dragInstanceId, s`controlsEnabled
    ensures outcome == Returned && s.Valid()
    ensures var inst := old(s.placedHouses)[id];
      var target := DropTarget(old(s.ghostPosition));
      PositionValid(s.catalog, old(s.placedHouses), old(s.roadSegments), target, inst.rotation, Some(id),
                    inst.templateId, inst.variationIndex) && target != inst.position && !inst.isAnimating ==>
        id in s.placedHouses && s.placedHouses[id] == MovedTo(inst, target) && s.placedHouses[id].position == target
  {
    StartDragAsWritten(s, id);
    outcome := HandlePointerUp(s);
  }

  /**
   * The same press and release with the corrected drag start: the house stays on its cell,
   * whatever an earlier drag left behind.
   */
  method TapSelectedHouse(s: AppState, id: InstanceId) returns (outcome: Outcome)
    requires s.Valid() && id in s.placedHouses
    modifies s`placedHouses, s`timelines, s`selectedTemplateInfo, s`selectedInstanceId
    modifies s`isDragging, s`dragInstanceId, s`controlsEnabled, s`ghostPosition
    ensures outcome == Returned && s.Valid()
    ensures id in s.placedHouses
    ensures DropTarget(s.placedHouses[id].position) == DropTarget(old(s.placedHouses)[id].position)
  {
    StartDrag(s, id);
    outcome := HandlePointerUp(s);
  }
}
