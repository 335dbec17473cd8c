/**
 * The placement validator (js/collisions.js): the candidate's rotated footprint
 * box, pulled in by COLLISION_CHECK_BUFFER on x and z, must miss every other
 * built house's box and every road box inflated by 0.1.
 */
module Collisions {
  import opened Wrappers
  import opened Constants
  import opened Geometry
  import opened Templates
  import opened LegoUtils
  import opened InstanceUtils
  import opened State

  /** How far each road box is inflated before the test. */
  const ROAD_SAFETY_MARGIN: real := 0.1

  /** The world box of the object being placed, with its x and z faces pulled in by the buffer. */
  function CandidateBox(c: Catalog, templateId: TemplateId, variationIndex: nat, target: Vec3, k: Quarter): (b: Box)
    requires ValidRef(c, templateId, variationIndex)
    ensures var w := RotatedBoundingBox(target, VariationOf(c, templateId, variationIndex), k, true);
      && b.min.y == w.min.y && b.max.y == w.max.y
      && b.min.x == w.min.x + COLLISION_CHECK_BUFFER && b.max.x == w.max.x - COLLISION_CHECK_BUFFER
      && b.min.z == w.min.z + COLLISION_CHECK_BUFFER && b.max.z == w.max.z - COLLISION_CHECK_BUFFER
  {
    ShrinkXZ(RotatedBoundingBox(target, VariationOf(c, templateId, variationIndex), k, true), COLLISION_CHECK_BUFFER)
  }

  /** The world box of a placed house. */
  function HouseBox(c: Catalog, h: Instance): Box
    requires ValidRef(c, h.templateId, h.variationIndex)
  {
    RotatedBoundingBox(h.position, VariationOf(c, h.templateId, h.variationIndex), h.rotation, true)
  }

  /** Every stored house names a catalog variation (what the lookup in the loop relies on). */
  predicate HousesResolve(c: Catalog, houses: map<InstanceId, Instance>) {
    forall id :: id in houses ==> ValidRef(c, houses[id].templateId, houses[id].variationIndex)
  }

  /** House id rejects the candidate: it is not the one being placed, it is built, and the boxes meet. */
  predicate HouseBlocks(c: Catalog, cand: Box, id: InstanceId, h: Instance, exclude: Option<InstanceId>)
    requires ValidRef(c, h.templateId, h.variationIndex)
  {
    exclude != Some(id) && h.isBuilt && Intersects(cand, HouseBox(c, h))
  }

  predicate RoadBlocks(cand: Box, r: RoadSegment) {
    Intersects(cand, ExpandByScalar(RoadBox(r), ROAD_SAFETY_MARGIN))
  }

  /** isPositionValid's answer: no house and no road rejects the candidate. */
  predicate PositionValid(c: Catalog, houses: map<InstanceId, Instance>, roads: seq<RoadSegment>,
                          target: Vec3, k: Quarter, exclude: Option<InstanceId>,
                          templateId: TemplateId, variationIndex: nat)
    requires ValidRef(c, templateId, variationIndex) && HousesResolve(c, houses)
  {
    var cand := CandidateBox(c, templateId, variationIndex, target, k);
    && (forall id :: id in houses ==> !HouseBlocks(c, cand, id, houses[id], exclude))
    && (forall i :: 0 <= i < |roads| ==> !RoadBlocks(cand, roads[i]))
  }

  /**
   * isPositionValid: the loop over placedHouses, then the loop over roadSegments,
   * each returning false at the first intersection. It only reads the state.
   */
  method IsPositionValid(s: AppState, target: Vec3, k: Quarter, exclude: Option<InstanceId>,
                         templateId: TemplateId, variationIndex: nat) returns (valid: bool)
    requires ValidRef(s.catalog, templateId, variationIndex) && HousesResolve(s.catalog, s.placedHouses)
    ensures valid <==> PositionValid(s.catalog, s.placedHouses, s.roadSegments, target, k, exclude, templateId, variationIndex)
  {
    var placing := GetRotatedBoundingBox(target, VariationOf(s.catalog, templateId, variationIndex), k, true);
    placing := Box(Vec3(placing.min.x + COLLISION_CHECK_BUFFER, placing.min.y, placing.min.z + COLLISION_CHECK_BUFFER),
                   Vec3(placing.max.x - COLLISION_CHECK_BUFFER, placing.max.y, placing.max.z - COLLISION_CHECK_BUFFER));
    assert placing == CandidateBox(s.catalog, templateId, variationIndex, target, k);
    var houses := s.placedHouses;
    var pending := houses.Keys;
    while pending != {}
      invariant pending <= houses.Keys
      invariant forall id :: id in houses && id !in pending ==> !HouseBlocks(s.catalog, placing, id, houses[id], exclude)
      decreases pending
    {
      var id :| id in pending;
      pending := pending - {id};
      if exclude == Some(id) || !houses[id].isBuilt {
        continue;
      }
      var other := houses[id];
      var otherBox := GetRotatedBoundingBox(other.position, VariationOf(s.catalog, other.templateId, other.variationIndex), other.rotation, true);
      if Intersects(placing, otherBox) {
        return false;
      }
    }
    for i := 0 to |s.roadSegments|
      invariant forall j :: 0 <= j < i ==> !RoadBlocks(placing, s.roadSegments[j])
    {
      var roadBox := ExpandByScalar(RoadBox(s.roadSegments[i]), ROAD_SAFETY_MARGIN);
      if Intersects(placing, roadBox) {
        return false;
      }
    }
    return true;
  }

  /** The excluded house and unbuilt houses never matter: dropping one leaves the answer unchanged. */
  lemma IgnoredHousesDoNotMatter(c: Catalog, houses: map<InstanceId, Instance>, roads: seq<RoadSegment>,
                                 target: Vec3, k: Quarter, exclude: Option<InstanceId>,
                                 templateId: TemplateId, variationIndex: nat, id: InstanceId)
    requires ValidRef(c, templateId, variationIndex) && HousesResolve(c, houses)
    requires id in houses && (exclude == Some(id) || !houses[id].isBuilt)
    ensures PositionValid(c, houses, roads, target, k, exclude, templateId, variationIndex)
        <==> PositionValid(c, houses - {id}, roads, target, k, exclude, templateId, variationIndex)
  {
    var cand := CandidateBox(c, templateId, variationIndex, target, k);
    assert !HouseBlocks(c, cand, id, houses[id], exclude);
    var rest := houses - {id};
    assert forall j :: j in houses && j != id ==> j in rest && rest[j] == houses[j];
  }

  /** One built, non-excluded house whose box meets the candidate makes the answer false. */
  lemma BuiltHouseRejects(c: Catalog, houses: map<InstanceId, Instance>, roads: seq<RoadSegment>,
                          target: Vec3, k: Quarter, exclude: Option<InstanceId>,
                          templateId: TemplateId, variationIndex: nat, id: InstanceId)
    requires ValidRef(c, templateId, variationIndex) && HousesResolve(c, houses)
    requires id in houses && exclude != Some(id) && houses[id].isBuilt
    requires Intersects(CandidateBox(c, templateId, variationIndex, target, k), HouseBox(c, houses[id]))
    ensures !PositionValid(c, houses, roads, target, k, exclude, templateId, variationIndex)
  {
    assert HouseBlocks(c, CandidateBox(c, templateId, variationIndex, target, k), id, houses[id], exclude);
  }

  /** One road whose inflated box meets the candidate makes the answer false. */
  lemma RoadRejects(c: Catalog, houses: map<InstanceId, Instance>, roads: seq<RoadSegment>,
                    target: Vec3, k: Quarter, exclude: Option<InstanceId>,
                    templateId: TemplateId, variationIndex: nat, i: nat)
    requires ValidRef(c, templateId, variationIndex) && HousesResolve(c, houses)
    requires i < |roads| && RoadBlocks(CandidateBox(c, templateId, variationIndex, target, k), roads[i])
    ensures !PositionValid(c, houses, roads, target, k, exclude, templateId, variationIndex)
  {
  }

  /** Footprints that only share a face (or are further apart) along x or z do not block each other,
      because the candidate is pulled in first. */
  lemma TouchingFootprintsDoNotBlock(w: Box, other: Box)
    requires w.max.x <= other.min.x || other.max.x <= w.min.x || w.max.z <= other.min.z || other.max.z <= w.min.z
    ensures !Intersects(ShrinkXZ(w, COLLISION_CHECK_BUFFER), other)
  {
  }

  /** Two houses of sizes placed side by side along x, face to face, may coexist. */
  lemma SideBySideHousesCoexist(c: Catalog, a: Instance, templateId: TemplateId, variationIndex: nat, target: Vec3, k: Quarter)
    requires ValidRef(c, templateId, variationIndex) && ValidRef(c, a.templateId, a.variationIndex)
    requires target.x - HalfExtentX(VariationOf(c, templateId, variationIndex), k)
          == a.position.x + HalfExtentX(VariationOf(c, a.templateId, a.variationIndex), a.rotation)
    ensures !Intersects(CandidateBox(c, templateId, variationIndex, target, k), HouseBox(c, a))
  {
    TouchingFootprintsDoNotBlock(RotatedBoundingBox(target, VariationOf(c, templateId, variationIndex), k, true), HouseBox(c, a));
  }

  /** Placing a house exactly where a built house of the same variation and rotation stands is rejected. */
  lemma SameSpotIsBlocked(c: Catalog, houses: map<InstanceId, Instance>, roads: seq<RoadSegment>,
                          exclude: Option<InstanceId>, id: InstanceId)
    requires HousesResolve(c, houses)
    requires id in houses && houses[id].isBuilt && exclude != Some(id)
    ensures var h := houses[id];
      !PositionValid(c, houses, roads, h.position, h.rotation, exclude, h.templateId, h.variationIndex)
  {
    var h := houses[id];
    var v := VariationOf(c, h.templateId, h.variationIndex);
    var cand := CandidateBox(c, h.templateId, h.variationIndex, h.position, h.rotation);
    assert HalfExtentX(v, h.rotation) >= 0.5 && HalfExtentZ(v, h.rotation) >= 0.5;
    assert Contains(cand, h.position) && Contains(HouseBox(c, h), h.position);
    IntersectsProperties(cand, HouseBox(c, h), h.position);
    BuiltHouseRejects(c, houses, roads, h.position, h.rotation, exclude, h.templateId, h.variationIndex, id);
  }

  /** The startup roads cross at the origin: nothing can be placed there. */
  lemma OriginIsBlockedByStartupRoads(c: Catalog, houses: map<InstanceId, Instance>, k: Quarter,
                                      exclude: Option<InstanceId>, templateId: TemplateId, variationIndex: nat)
    requires ValidRef(c, templateId, variationIndex) && HousesResolve(c, houses)
    ensures !PositionValid(c, houses, StartupRoads(), Vec3(0.0, 0.0, 0.0), k, exclude, templateId, variationIndex)
  {
    var cand := CandidateBox(c, templateId, variationIndex, Vec3(0.0, 0.0, 0.0), k);
    var v := VariationOf(c, templateId, variationIndex);
    assert HalfExtentX(v, k) >= 0.5 && HalfExtentZ(v, k) >= 0.5;
    var road := ExpandByScalar(RoadBox(StartupRoads()[0]), ROAD_SAFETY_MARGIN);
    assert Contains(cand, Vec3(0.0, 0.0, 0.0)) && Contains(road, Vec3(0.0, 0.0, 0.0));
    IntersectsProperties(cand, road, Vec3(0.0, 0.0, 0.0));
    RoadRejects(c, houses, StartupRoads(), Vec3(0.0, 0.0, 0.0), k, exclude, templateId, variationIndex, 0);
  }

  /** In a consistent record every stored house resolves in the catalog, as the validator's loop needs. */
  lemma ConsistentHousesResolve(s: AppState)
    requires s.Consistent()
    ensures HousesResolve(s.catalog, s.placedHouses)
  {
  }
}
