/**
 * The high-level actions (js/actions.js): place, unbuild, move and rotate,
 * each with its guard, and the end of a timeline, which stands for the GSAP
 * onComplete callbacks of js/animations.js and js/actions.js. UI refreshes and
 * status text are not modelled.
 */
module Actions {
  import opened Wrappers
  import opened Geometry
  import opened Templates
  import opened InstanceUtils
  import opened State
  import opened Collisions
  import opened Animations
  import opened Selection

  /** The guard of unbuild, move and rotate: a truthy id naming a stored house that is not animating. */
  predicate ActionGuard(houses: map<InstanceId, Instance>, id: Option<InstanceId>) {
    Truthy(id) && id.value in houses && !houses[id.value].isAnimating
  }

  /** The instance is stored under its never-issued id, which becomes issued, and its build
      starts; the record stays consistent and settled. */
  method StoreAndBuild(s: AppState, inst: Instance)
    requires s.Valid() && inst.instanceId != "" && inst.instanceId !in s.issuedIds
    requires InstanceOk(s.catalog, inst) && !inst.isSelected && !inst.isAnimating && !inst.isBuilt
    modifies s`placedHouses, s`issuedIds, s`timelines
    ensures inst.instanceId !in old(s.placedHouses)
    ensures s.placedHouses == old(s.placedHouses)[inst.instanceId := inst.(isAnimating := true)]
    ensures s.timelines == old(s.timelines)[inst.instanceId := Building]
    ensures s.issuedIds == old(s.issuedIds) + {inst.instanceId}
    ensures s.Valid()
  {
    ghost var houses := s.placedHouses;
    StoreHouse(s, inst);
    assert s.placedHouses[inst.instanceId] == inst;
    AnimateBuild(s, inst.instanceId);
    UpdateTwice(houses, inst.instanceId, inst, inst.(isAnimating := true));
  }

  /** placedHouses.set(id, instance): the new house is stored and its id issued; every other house
      is still settled. */
  method StoreHouse(s: AppState, inst: Instance)
    requires s.Valid() && inst.instanceId != "" && inst.instanceId !in s.issuedIds
    requires InstanceOk(s.catalog, inst) && !inst.isSelected && !inst.isAnimating && !inst.isBuilt
    modifies s`placedHouses, s`issuedIds
    ensures inst.instanceId !in old(s.placedHouses) && inst.instanceId !in s.timelines
    ensures s.placedHouses == old(s.placedHouses)[inst.instanceId := inst]
    ensures s.issuedIds == old(s.issuedIds) + {inst.instanceId}
    ensures s.Consistent() && s.SettledBut(inst.instanceId)
    ensures CanAnimate(s.placedHouses, inst.instanceId, false)
  {
    var id := inst.instanceId;
    AddHouseRecord(s.catalog, s.placedHouses, s.selectedTemplateInfo, s.selectedInstanceId, s.timelines, s.issuedIds,
                   id, inst);
    ghost var before := s.placedHouses;
    s.placedHouses := s.placedHouses[id := inst];
    s.issuedIds := s.issuedIds + {id};
    assert s.SettledBut(id) by {
      forall j | j in s.placedHouses && j != id
        ensures s.placedHouses[j].isBuilt || s.placedHouses[j].isAnimating
      {
        assert s.placedHouses[j] == before[j];
      }
    }
  }

  /**
   * placeBuildingAction: a new instance is created under a fresh uuid and stored, its build
   * starts, and the pending template is cleared. Every other house is untouched.
   */
  method PlaceBuildingAction(s: AppState, templateId: TemplateId, variationIndex: nat, placement: Vec3,
                             freshId: InstanceId)
    requires s.Valid() && ValidRef(s.catalog, templateId, variationIndex)
    requires freshId != "" && freshId !in s.issuedIds
    modifies s`placedHouses, s`timelines, s`issuedIds, s`selectedTemplateInfo
    ensures freshId !in old(s.placedHouses)
    ensures s.placedHouses == old(s.placedHouses)[freshId := NewHouse(s.catalog, templateId, variationIndex, freshId, placement)]
    ensures s.timelines == old(s.timelines)[freshId := Building]
    ensures s.selectedTemplateInfo == None
    ensures s.issuedIds == old(s.issuedIds) + {freshId}
    ensures s.Valid()
  {
    var newInstance := CreateHouseInstanceData(s.catalog, templateId, variationIndex, freshId, placement);
    NewInstanceIsOk(s.catalog, templateId, variationIndex, freshId, placement);
    StoreAndBuild(s, newInstance);
    CancelPlacementSelection(s);
  }

  /** The house a placement stores: the new instance data of the variation, already animating. */
  function NewHouse(c: Catalog, templateId: TemplateId, variationIndex: nat, id: InstanceId, placement: Vec3): (h: Instance)
    requires ValidRef(c, templateId, variationIndex)
    ensures h.templateId == templateId && h.variationIndex == variationIndex && h.instanceId == id
    ensures h.position == placement && h.rotation == 0
    ensures !h.isBuilt && h.isAnimating && !h.isSelected
    ensures InstanceOk(c, h)
  {
    NewInstanceIsOk(c, templateId, variationIndex, id, placement);
    InstanceOkIgnoresFlags(c, Instance(templateId, variationIndex, id, placement, 0,
      SortByBuildOrder(CreationOrder(VariationOf(c, templateId, variationIndex), placement)), false, false, false), false, false, true);
    Instance(templateId, variationIndex, id, placement, 0,
      SortByBuildOrder(CreationOrder(VariationOf(c, templateId, variationIndex), placement)), false, true, false)
  }

  /**
   * unbuildBuildingAction: ignored unless the id names a stored, idle house. The house is
   * deselected first when it is the selected one, then its unbuild starts. It stays stored
   * until the timeline ends.
   */
  method UnbuildBuildingAction(s: AppState, id: Option<InstanceId>)
    requires s.Valid()
    modifies s`placedHouses, s`timelines, s`selectedInstanceId
    ensures if ActionGuard(old(s.placedHouses), id) then
        var h := if old(s.selectedInstanceId) == id then Deselected(old(s.placedHouses), old(s.selectedInstanceId))
                 else old(s.placedHouses);
        && s.placedHouses == h[id.value := h[id.value].(isAnimating := true, isBuilt := false)]
        && s.timelines == old(s.timelines)[id.value := Unbuilding]
        && s.selectedInstanceId == (if old(s.selectedInstanceId) == id then None else old(s.selectedInstanceId))
        && !s.placedHouses[id.value].isSelected
      else
        && s.placedHouses == old(s.placedHouses) && s.timelines == old(s.timelines)
        && s.selectedInstanceId == old(s.selectedInstanceId)
    ensures s.Valid()
  {
    if !Truthy(id) || id.value !in s.placedHouses || s.placedHouses[id.value].isAnimating {
      return;
    }
    var instanceId := id.value;
    if s.selectedInstanceId == id {
      DeselectPlacedHouse(s);
    }
    assert s.placedHouses[instanceId].isBuilt;
    AnimateUnbuild(s, instanceId);
  }

  /** moveBuildingAction: ignored unless the id names a stored, idle house; no collision check of
      its own, the move animation starts towards newPosition. */
  method MoveBuildingAction(s: AppState, id: Option<InstanceId>, newPosition: Vec3)
    requires s.Valid()
    modifies s`placedHouses, s`timelines
    ensures if ActionGuard(old(s.placedHouses), id) then
        && s.placedHouses == old(s.placedHouses)[id.value := MovedTo(old(s.placedHouses)[id.value], newPosition)]
        && s.timelines == old(s.timelines)[id.value := Moving]
      else s.placedHouses == old(s.placedHouses) && s.timelines == old(s.timelines)
    ensures s.Valid()
  {
    if !Truthy(id) || id.value !in s.placedHouses || s.placedHouses[id.value].isAnimating {
      return;
    }
    AnimateMove(s, id.value, newPosition);
  }

  /**
   * rotateBuildingAction, with the quarter-turn step it evidently intends: ignored unless the id
   * names a stored, idle house; rejected, with nothing changed, when the house would collide at the
   * next quarter turn; otherwise the rotate animation starts towards that turn.
   */
  method RotateBuildingAction(s: AppState, id: Option<InstanceId>)
    requires s.Valid()
    modifies s`placedHouses, s`timelines
    ensures if ActionGuard(old(s.placedHouses), id) &&
               (var inst := old(s.placedHouses)[id.value];
                PositionValid(s.catalog, old(s.placedHouses), old(s.roadSegments), inst.position,
                              NextQuarter(inst.rotation), id, inst.templateId, inst.variationIndex)) then
        && s.placedHouses == old(s.placedHouses)[id.value := TurnedTo(old(s.placedHouses)[id.value], NextQuarter(old(s.placedHouses)[id.value].rotation))]
        && s.timelines == old(s.timelines)[id.value := Rotating]
      else s.placedHouses == old(s.placedHouses) && s.timelines == old(s.timelines)
    ensures s.Valid()
  {
    if !Truthy(id) || id.value !in s.placedHouses || s.placedHouses[id.value].isAnimating {
      return;
    }
    var instanceId := id.value;
    var instance := s.placedHouses[instanceId];
    var newRotation := NextQuarter(instance.rotation);
    ConsistentHousesResolve(s);
    var valid := IsPositionValid(s, instance.position, newRotation, id, instance.templateId, instance.variationIndex);
    if !valid {
      return;
    }
    AnimateRotate(s, instanceId, newRotation);
  }

  /** How a handler ends: normally, or by an uncaught exception. */
  datatype Outcome = Returned | Threw(error: string)

  /**
   * rotateBuildingAction as written: past the guard it reads C.ROTATION_INCREMENT, but C is
   * not imported in js/actions.js, so every rotate that passes the guard ends in a
   * ReferenceError before it changes anything.
   */
  method RotateBuildingActionAsWritten(s: AppState, id: Option<InstanceId>) returns (outcome: Outcome)
    ensures outcome == if ActionGuard(s.placedHouses, id) then Threw("ReferenceError") else Returned
  {
    if !Truthy(id) || id.value !in s.placedHouses || s.placedHouses[id.value].isAnimating {
      return Returned;
    }
    return Threw("ReferenceError");
  }

  /**
   * The end of a timeline (the onComplete callbacks): a build leaves the house built and idle,
   * a move or rotate leaves it idle, and an unbuild removes it from placedHouses.
   */
  method CompleteAnimation(s: AppState, id: InstanceId)
    requires s.Consistent() && id in s.timelines
    modifies s`placedHouses, s`timelines
    ensures s.timelines == old(s.timelines) - {id}
    ensures match old(s.timelines)[id]
      case Unbuilding => s.placedHouses == old(s.placedHouses) - {id}
      case Building => s.placedHouses == old(s.placedHouses)[id := old(s.placedHouses)[id].(isBuilt := true, isAnimating := false)]
      case _ => s.placedHouses == old(s.placedHouses)[id := old(s.placedHouses)[id].(isAnimating := false)]
    ensures s.Consistent()
    ensures old(s.Settled()) ==> s.Settled()
  {
    match s.timelines[id]
    case Unbuilding =>
      RemoveHouseRecord(s.catalog, s.placedHouses, s.selectedTemplateInfo, s.selectedInstanceId, s.timelines, s.issuedIds, id);
      if s.Settled() { SettledAfterRemove(s.placedHouses, None, id); }
      s.Store(s.placedHouses - {id}, s.timelines - {id});
    case Building =>
      StopTimeline(s, id, true);
    case _ =>
      StopTimeline(s, id, s.placedHouses[id].isBuilt);
  }

  /** The end of a build, move or rotate timeline: the house stops animating, with isBuilt set to
      built (true after a build, unchanged otherwise), and its timeline is dropped. */
  method StopTimeline(s: AppState, id: InstanceId, built: bool)
    requires s.Consistent() && id in s.timelines && s.timelines[id] != Unbuilding
    requires built == (s.timelines[id] == Building || s.placedHouses[id].isBuilt)
    modifies s`placedHouses, s`timelines
    ensures s.timelines == old(s.timelines) - {id}
    ensures s.placedHouses == old(s.placedHouses)[id := old(s.placedHouses)[id].(isBuilt := built, isAnimating := false)]
    ensures s.Consistent()
    ensures old(s.Settled()) ==> s.Settled()
  {
    var done := s.placedHouses[id].(isBuilt := built, isAnimating := false);
    InstanceOkIgnoresFlags(s.catalog, s.placedHouses[id], s.placedHouses[id].isSelected, built, false);
    ReplaceHouse(s.catalog, s.placedHouses, s.selectedTemplateInfo, s.selectedInstanceId, s.timelines, s.issuedIds,
                 id, done, None);
    if s.Settled() { SettledAfterStore(s.placedHouses, None, id, done); }
    s.Store(s.placedHouses[id := done], s.timelines - {id});
  }
}
