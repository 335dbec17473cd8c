/**
 * The state effects of the four animations (js/animations.js): each start
 * method checks its guard, sets the flags, registers the timeline and, for move
 * and rotate, recomputes every brick's final position. The tweens themselves
 * are not modelled; the end of a timeline is Actions.CompleteAnimation.
 */
module Animations {
  import opened Wrappers
  import opened Geometry
  import opened Templates
  import opened InstanceUtils
  import opened State

  /** The guard shared by the four animations: the instance exists, is (or is not) built, and is idle. */
  predicate CanAnimate(houses: map<InstanceId, Instance>, id: InstanceId, built: bool) {
    id in houses && houses[id].isBuilt == built && !houses[id].isAnimating
  }

  /** A brick retargeted to a new centre and rotation: final x, z from the rotated offset, final y kept;
      the final yaw is set only when setRotation holds. */
  function Retarget(b: Brick, center: Vec3, k: Quarter, setRotation: bool): Brick {
    b.(finalPos := Vec3(center.x + RotX(b.relPos, k), b.finalPos.y, center.z + RotZ(b.relPos, k)),
       finalRotY := if setRotation then k else b.finalRotY)
  }

  function RetargetAll(bricks: seq<Brick>, center: Vec3, k: Quarter, setRotation: bool): (r: seq<Brick>)
    ensures |r| == |bricks|
  {
    seq(|bricks|, i requires 0 <= i < |bricks| => Retarget(bricks[i], center, k, setRotation))
  }

  /**
   * Retargeting a well-placed, sorted brick list to a new centre (move: same rotation) or a new
   * rotation (rotate: yaw set) leaves every brick placed for the new centre and rotation, with its
   * final y, build order and offset unchanged, so the list stays sorted.
   */
  lemma RetargetKeepsPlacement(bricks: seq<Brick>, oldCenter: Vec3, oldK: Quarter,
                               center: Vec3, k: Quarter, setRotation: bool)
    requires AllPlaced(bricks, oldCenter, oldK) && SortedByBuildOrder(bricks)
    requires setRotation || k == oldK
    ensures var r := RetargetAll(bricks, center, k, setRotation);
      && AllPlaced(r, center, k) && SortedByBuildOrder(r)
      && forall i :: 0 <= i < |bricks| ==>
           r[i].finalPos.y == bricks[i].finalPos.y && r[i].relPos == bricks[i].relPos && r[i].buildOrder == bricks[i].buildOrder
  {
  }

  /** The forEach over the bricks that writes each new final position (and, for rotate, yaw). */
  method RetargetBricks(bricks: seq<Brick>, center: Vec3, k: Quarter, setRotation: bool) returns (out: seq<Brick>)
    ensures out == RetargetAll(bricks, center, k, setRotation)
  {
    out := [];
    for i := 0 to |bricks|
      invariant |out| == i
      invariant forall j :: 0 <= j < i ==> out[j] == Retarget(bricks[j], center, k, setRotation)
    {
      var b := bricks[i];
      var rotatedRelX := b.relPos.x * Cos(k) + b.relPos.z * Sin(k);
      var rotatedRelZ := -b.relPos.x * Sin(k) + b.relPos.z * Cos(k);
      var nb := b.(finalPos := Vec3(center.x + rotatedRelX, b.finalPos.y, center.z + rotatedRelZ));
      if setRotation {
        nb := nb.(finalRotY := k);
      }
      out := out + [nb];
    }
  }

  /** The instance once a move towards p has started: animating, at p, bricks retargeted at its rotation. */
  function MovedTo(inst: Instance, p: Vec3): Instance {
    inst.(isAnimating := true, position := p, bricks := RetargetAll(inst.bricks, p, inst.rotation, false))
  }

  /** The instance once a rotation to k has started: animating, turned to k, bricks retargeted about its position. */
  function TurnedTo(inst: Instance, k: Quarter): Instance {
    inst.(isAnimating := true, rotation := k, bricks := RetargetAll(inst.bricks, inst.position, k, true))
  }

  /** A started move keeps the house well formed: it stands at p with its rotation kept, and every
      brick is placed for p with its height unchanged. */
  lemma MoveKeepsInstanceOk(c: Catalog, inst: Instance, p: Vec3)
    requires InstanceOk(c, inst)
    ensures var m := MovedTo(inst, p);
      && InstanceOk(c, m) && m.position == p && m.rotation == inst.rotation && |m.bricks| == |inst.bricks|
      && forall i :: 0 <= i < |m.bricks| ==> m.bricks[i].finalPos.y == inst.bricks[i].finalPos.y
  {
    RetargetKeepsPlacement(inst.bricks, inst.position, inst.rotation, p, inst.rotation, false);
  }

  /** A started rotation keeps the house well formed: it stays at its position turned to k, and every
      brick is placed for the new turn, with its yaw set to k and its height unchanged. */
  lemma TurnKeepsInstanceOk(c: Catalog, inst: Instance, k: Quarter)
    requires InstanceOk(c, inst)
    ensures var t := TurnedTo(inst, k);
      && InstanceOk(c, t) && t.position == inst.position && t.rotation == k && |t.bricks| == |inst.bricks|
      && forall i :: 0 <= i < |t.bricks| ==> t.bricks[i].finalRotY == k && t.bricks[i].finalPos.y == inst.bricks[i].finalPos.y
  {
    RetargetKeepsPlacement(inst.bricks, inst.position, inst.rotation, inst.position, k, true);
  }

  /** animateBuild: an existing, unbuilt, idle instance starts animating; otherwise nothing happens. */
  method AnimateBuild(s: AppState, id: InstanceId)
    requires s.Consistent()
    modifies s`placedHouses, s`timelines
    ensures if CanAnimate(old(s.placedHouses), id, false) then
        && s.placedHouses == old(s.placedHouses)[id := old(s.placedHouses)[id].(isAnimating := true)]
        && s.timelines == old(s.timelines)[id := Building]
      else s.placedHouses == old(s.placedHouses) && s.timelines == old(s.timelines)
    ensures s.Consistent()
    ensures old(s.SettledBut(id)) ==> s.Settled()
  {
    if id !in s.placedHouses || s.placedHouses[id].isBuilt || s.placedHouses[id].isAnimating {
      return;
    }
    var building := s.placedHouses[id].(isAnimating := true);
    InstanceOkIgnoresFlags(s.catalog, s.placedHouses[id], building.isSelected, false, true);
    ReplaceHouse(s.catalog, s.placedHouses, s.selectedTemplateInfo, s.selectedInstanceId, s.timelines, s.issuedIds,
                 id, building, Some(Building));
    if s.SettledBut(id) { SettledOnceAnimating(s.placedHouses, id, building); }
    s.Store(s.placedHouses[id := building], s.timelines[id := Building]);
  }

  /** animateUnbuild: an existing, built, idle instance starts animating and is marked unbuilt at once.
      Its only caller has already deselected it. */
  method AnimateUnbuild(s: AppState, id: InstanceId)
    requires s.Consistent() && s.selectedInstanceId != Some(id)
    modifies s`placedHouses, s`timelines
    ensures if CanAnimate(old(s.placedHouses), id, true) then
        && s.placedHouses == old(s.placedHouses)[id := old(s.placedHouses)[id].(isAnimating := true, isBuilt := false)]
        && s.timelines == old(s.timelines)[id := Unbuilding]
      else s.placedHouses == old(s.placedHouses) && s.timelines == old(s.timelines)
    ensures s.Consistent()
    ensures old(s.Settled()) ==> s.Settled()
  {
    if id !in s.placedHouses || !s.placedHouses[id].isBuilt || s.placedHouses[id].isAnimating {
      return;
    }
    var unbuilding := s.placedHouses[id].(isAnimating := true, isBuilt := false);
    InstanceOkIgnoresFlags(s.catalog, s.placedHouses[id], unbuilding.isSelected, false, true);
    ReplaceHouse(s.catalog, s.placedHouses, s.selectedTemplateInfo, s.selectedInstanceId, s.timelines, s.issuedIds,
                 id, unbuilding, Some(Unbuilding));
    if s.Settled() { SettledAfterStore(s.placedHouses, None, id, unbuilding); }
    s.Store(s.placedHouses[id := unbuilding], s.timelines[id := Unbuilding]);
  }

  /** animateMove: an existing, built, idle instance starts animating; every brick's final x, z is
      retargeted to the new centre at the current rotation, and the position is set at once. */
  method AnimateMove(s: AppState, id: InstanceId, newPosition: Vec3)
    requires s.Consistent()
    modifies s`placedHouses, s`timelines
    ensures if CanAnimate(old(s.placedHouses), id, true) then
        && s.placedHouses == old(s.placedHouses)[id := MovedTo(old(s.placedHouses)[id], newPosition)]
        && s.timelines == old(s.timelines)[id := Moving]
      else s.placedHouses == old(s.placedHouses) && s.timelines == old(s.timelines)
    ensures s.Consistent()
    ensures old(s.Settled()) ==> s.Settled()
  {
    if id !in s.placedHouses || !s.placedHouses[id].isBuilt || s.placedHouses[id].isAnimating {
      return;
    }
    var instance := s.placedHouses[id];
    var currentRotation := instance.rotation;
    var bricks := RetargetBricks(instance.bricks, newPosition, currentRotation, false);
    var moved := instance.(isAnimating := true, bricks := bricks, position := newPosition);
    RetargetKeepsPlacement(instance.bricks, instance.position, currentRotation, newPosition, currentRotation, false);
    ReplaceHouse(s.catalog, s.placedHouses, s.selectedTemplateInfo, s.selectedInstanceId, s.timelines, s.issuedIds,
                 id, moved, Some(Moving));
    if s.Settled() { SettledAfterStore(s.placedHouses, None, id, moved); }
    s.Store(s.placedHouses[id := moved], s.timelines[id := Moving]);
  }

  /** animateRotate: an existing, built, idle instance starts animating; every brick's final x, z and
      yaw are retargeted to the new rotation about the unchanged position, and the rotation is set. */
  method AnimateRotate(s: AppState, id: InstanceId, newRotation: Quarter)
    requires s.Consistent()
    modifies s`placedHouses, s`timelines
    ensures if CanAnimate(old(s.placedHouses), id, true) then
        && s.placedHouses == old(s.placedHouses)[id := TurnedTo(old(s.placedHouses)[id], newRotation)]
        && s.timelines == old(s.timelines)[id := Rotating]
      else s.placedHouses == old(s.placedHouses) && s.timelines == old(s.timelines)
    ensures s.Consistent()
    ensures old(s.Settled()) ==> s.Settled()
  {
    if id !in s.placedHouses || !s.placedHouses[id].isBuilt || s.placedHouses[id].isAnimating {
      return;
    }
    var instance := s.placedHouses[id];
    var center := instance.position;
    var bricks := RetargetBricks(instance.bricks, center, newRotation, true);
    var rotated := instance.(isAnimating := true, bricks := bricks, rotation := newRotation);
    RetargetKeepsPlacement(instance.bricks, center, instance.rotation, center, newRotation, true);
    ReplaceHouse(s.catalog, s.placedHouses, s.selectedTemplateInfo, s.selectedInstanceId, s.timelines, s.issuedIds,
                 id, rotated, Some(Rotating));
    if s.Settled() { SettledAfterStore(s.placedHouses, None, id, rotated); }
    s.Store(s.placedHouses[id := rotated], s.timelines[id := Rotating]);
  }
}
