/**
 * The editor's single mutable record (js/state.js): the placed houses keyed by
 * instance id, the road meshes, the pending template, the selected instance and
 * the drag state. Running GSAP timelines are kept as a map from instance id to
 * the kind of animation in flight; their onComplete callbacks are the
 * completion method in Actions.
 */
module State {
  import opened Wrappers
  import opened Geometry
  import opened Templates
  import opened LegoUtils
  import opened InstanceUtils

  /** The kind of timeline running for an instance. */
  datatype Animation = Building | Unbuilding | Moving | Rotating

  /** A JavaScript truth test on an id that may be null: null and "" are falsy. */
  predicate Truthy(id: Option<InstanceId>): (t: bool)
    ensures id == None ==> !t
    ensures id == Some("") ==> !t
    ensures id.Some? && id.value != "" ==> t
  {
    id.Some? && id.value != ""
  }

  /** The flags an instance has while a timeline of the given kind runs for it. */
  predicate TimelineFits(a: Animation, inst: Instance) {
    inst.isAnimating && (if a == Building || a == Unbuilding then !inst.isBuilt else inst.isBuilt)
  }

  /** The three road rectangles the editor lays out at startup (12 x 300 along z, two 200 x 10 along x). */
  function StartupRoads(): (roads: seq<RoadSegment>)
    ensures |roads| == 3
  {
    [CreateRoadSegment(12.0, 300.0, Vec3(0.0, 0.0, 0.0), 0),
     CreateRoadSegment(200.0, 10.0, Vec3(0.0, 0.0, -60.0), 0),
     CreateRoadSegment(200.0, 10.0, Vec3(0.0, 0.0, 60.0), 0)]
  }

  /** Houses are stored under their own, non-empty id and are well formed. */
  ghost predicate HousesOk(c: Catalog, houses: map<InstanceId, Instance>) {
    forall id :: id in houses ==> id != "" && houses[id].instanceId == id && InstanceOk(c, houses[id])
  }

  /** Exactly the selected instance has isSelected, and it is a stored, built house; a pending
      template excludes a selected instance and names a catalog variation. */
  ghost predicate SelectionOk(c: Catalog, houses: map<InstanceId, Instance>, template: Option<TemplateRef>,
                              selected: Option<InstanceId>)
  {
    && (forall id :: id in houses ==> (houses[id].isSelected <==> selected == Some(id)))
    && (selected.Some? ==> selected.value in houses && houses[selected.value].isBuilt)
    && (template.Some? ==> selected.None? && ValidRef(c, template.value.id, template.value.index))
  }

  /** An instance is animating exactly when a timeline runs for it, with the flags that timeline implies. */
  ghost predicate TimelinesOk(houses: map<InstanceId, Instance>, timelines: map<InstanceId, Animation>) {
    && (forall id :: id in houses ==> (houses[id].isAnimating <==> id in timelines))
    && (forall id :: id in timelines ==> id in houses && TimelineFits(timelines[id], houses[id]))
  }

  /** What every operation keeps true; stored ids were all issued. */
  ghost predicate ConsistentRecord(c: Catalog, houses: map<InstanceId, Instance>, template: Option<TemplateRef>,
                                   selected: Option<InstanceId>, timelines: map<InstanceId, Animation>,
                                   issued: set<InstanceId>)
  {
    && HousesOk(c, houses)
    && SelectionOk(c, houses, template, selected)
    && TimelinesOk(houses, timelines)
    && houses.Keys <= issued
  }

  /** Storing a well-formed house under its own id keeps HousesOk. */
  lemma HousesOkStore(c: Catalog, houses: map<InstanceId, Instance>, id: InstanceId, inst: Instance)
    requires HousesOk(c, houses) && id != "" && inst.instanceId == id && InstanceOk(c, inst)
    ensures HousesOk(c, houses[id := inst])
  {
  }

  /** The selection and animation flags play no part in InstanceOk. */
  lemma InstanceOkIgnoresFlags(c: Catalog, inst: Instance, selected: bool, built: bool, animating: bool)
    requires InstanceOk(c, inst)
    ensures InstanceOk(c, inst.(isSelected := selected, isBuilt := built, isAnimating := animating))
  {
  }

  /** Between user actions no house (other than except) is left unbuilt without an animation. */
  ghost predicate SettledHouses(houses: map<InstanceId, Instance>, except: Option<InstanceId>) {
    forall id :: id in houses && except != Some(id) ==> houses[id].isBuilt || houses[id].isAnimating
  }

  /** Storing a built or animating house (or the excepted one) keeps the other houses settled. */
  lemma SettledAfterStore(houses: map<InstanceId, Instance>, except: Option<InstanceId>, id: InstanceId, inst: Instance)
    requires SettledHouses(houses, except) && (inst.isBuilt || inst.isAnimating || except == Some(id))
    ensures SettledHouses(houses[id := inst], except)
  {
    var h := houses[id := inst];
    forall j | j in h && except != Some(j)
      ensures h[j].isBuilt || h[j].isAnimating
    {
      if j != id { assert h[j] == houses[j]; }
    }
  }

  /** Once the one unsettled house starts animating, every house is settled. */
  lemma SettledOnceAnimating(houses: map<InstanceId, Instance>, id: InstanceId, inst: Instance)
    requires SettledHouses(houses, Some(id)) && inst.isAnimating
    ensures SettledHouses(houses[id := inst], None)
  {
    var h := houses[id := inst];
    forall j | j in h
      ensures h[j].isBuilt || h[j].isAnimating
    {
      if j != id { assert h[j] == houses[j]; }
    }
  }

  /** Dropping a house keeps the others settled. */
  lemma SettledAfterRemove(houses: map<InstanceId, Instance>, except: Option<InstanceId>, id: InstanceId)
    requires SettledHouses(houses, except)
    ensures SettledHouses(houses - {id}, except)
  {
    var h := houses - {id};
    forall j | j in h && except != Some(j)
      ensures h[j].isBuilt || h[j].isAnimating
    {
      assert h[j] == houses[j];
    }
  }

  /** The timelines after one for id starts (Some) or ends (None). */
  function TimelineAfter(timelines: map<InstanceId, Animation>, id: InstanceId, a: Option<Animation>): map<InstanceId, Animation> {
    if a.Some? then timelines[id := a.value] else timelines - {id}
  }

  /** Replacing a stored house by a well-formed one with the same id and selection flag, whose timeline
      starts or ends with it, keeps the record consistent. */
  lemma ReplaceHouse(c: Catalog, houses: map<InstanceId, Instance>, template: Option<TemplateRef>,
                     selected: Option<InstanceId>, timelines: map<InstanceId, Animation>, issued: set<InstanceId>,
                     id: InstanceId, inst: Instance, a: Option<Animation>)
    requires ConsistentRecord(c, houses, template, selected, timelines, issued)
    requires id in houses && inst.instanceId == id && InstanceOk(c, inst)
    requires inst.isSelected == houses[id].isSelected && (selected == Some(id) ==> inst.isBuilt)
    requires (a.Some? <==> inst.isAnimating) && (a.Some? ==> TimelineFits(a.value, inst))
    ensures ConsistentRecord(c, houses[id := inst], template, selected, TimelineAfter(timelines, id, a), issued)
  {
    var h := houses[id := inst];
    var t := TimelineAfter(timelines, id, a);
    HousesOkStore(c, houses, id, inst);
    assert SelectionOk(c, h, template, selected) by {
      forall j | j in h
        ensures h[j].isSelected <==> selected == Some(j)
      {
        if j != id { assert h[j] == houses[j]; }
      }
    }
    assert TimelinesOk(h, t) by {
      forall j | j in h
        ensures h[j].isAnimating <==> j in t
      {
        if j != id { assert h[j] == houses[j]; }
      }
      forall j | j in t
        ensures j in h && TimelineFits(t[j], h[j])
      {
        if j != id { assert t[j] == timelines[j] && h[j] == houses[j]; }
      }
    }
  }

  /** Storing a new, unselected, idle, well-formed house under a never-issued id keeps the record
      consistent, with that id now issued. */
  lemma AddHouseRecord(c: Catalog, houses: map<InstanceId, Instance>, template: Option<TemplateRef>,
                       selected: Option<InstanceId>, timelines: map<InstanceId, Animation>, issued: set<InstanceId>,
                       id: InstanceId, inst: Instance)
    requires ConsistentRecord(c, houses, template, selected, timelines, issued)
    requires id != "" && id !in issued && inst.instanceId == id && InstanceOk(c, inst)
    requires !inst.isSelected && !inst.isAnimating
    ensures id !in houses && id !in timelines
    ensures ConsistentRecord(c, houses[id := inst], template, selected, timelines, issued + {id})
  {
    var h := houses[id := inst];
    HousesOkStore(c, houses, id, inst);
    assert SelectionOk(c, h, template, selected) by {
      forall j | j in h
        ensures h[j].isSelected <==> selected == Some(j)
      {
        if j != id { assert h[j] == houses[j]; }
      }
    }
    assert TimelinesOk(h, timelines) by {
      forall j | j in h
        ensures h[j].isAnimating <==> j in timelines
      {
        if j != id { assert h[j] == houses[j]; }
      }
      forall j | j in timelines
        ensures j in h && TimelineFits(timelines[j], h[j])
      {
        assert j != id && h[j] == houses[j];
      }
    }
  }

  /** Dropping a house whose unbuild timeline has ended keeps the record consistent. */
  lemma RemoveHouseRecord(c: Catalog, houses: map<InstanceId, Instance>, template: Option<TemplateRef>,
                          selected: Option<InstanceId>, timelines: map<InstanceId, Animation>, issued: set<InstanceId>,
                          id: InstanceId)
    requires ConsistentRecord(c, houses, template, selected, timelines, issued)
    requires id in timelines && timelines[id] == Unbuilding
    ensures selected != Some(id)
    ensures ConsistentRecord(c, houses - {id}, template, selected, timelines - {id}, issued)
  {
    var h := houses - {id};
    assert forall j :: j in h ==> j in houses && h[j] == houses[j];
  }

  /** A second update of the same key overrides the first. */
  lemma UpdateTwice<K, V>(m: map<K, V>, k: K, a: V, b: V)
    ensures m[k := a][k := b] == m[k := b]
  {
  }

  /** No stored house carries the isSelected flag. */
  predicate NoneSelected(houses: map<InstanceId, Instance>) {
    forall id :: id in houses ==> !houses[id].isSelected
  }

  /** The houses after deselectPlacedHouse: the named house, if stored, loses its flag. */
  function Deselected(houses: map<InstanceId, Instance>, selected: Option<InstanceId>): map<InstanceId, Instance> {
    if Truthy(selected) && selected.value in houses then houses[selected.value := houses[selected.value].(isSelected := false)]
    else houses
  }

  /** The houses with the isSelected flag on id alone. */
  function SelectedOnly(houses: map<InstanceId, Instance>, id: InstanceId): map<InstanceId, Instance> {
    map j | j in houses :: houses[j].(isSelected := j == id)
  }

  /** When the flags follow the selected id and id is the selected one, the flag is on id alone. */
  lemma SelectedOnlyWhenSelected(c: Catalog, houses: map<InstanceId, Instance>, template: Option<TemplateRef>,
                                 id: InstanceId)
    requires SelectionOk(c, houses, template, Some(id))
    ensures houses == SelectedOnly(houses, id)
  {
    var r := SelectedOnly(houses, id);
    forall j | j in houses
      ensures houses[j] == r[j]
    {
      assert houses[j].isSelected == (j == id);
    }
  }

  /** When the flags follow the selected id, deselecting and then flagging id leaves the flag on
      id alone. */
  lemma SelectedOnlyAfterReselect(c: Catalog, houses: map<InstanceId, Instance>, template: Option<TemplateRef>,
                                  selected: Option<InstanceId>, id: InstanceId)
    requires SelectionOk(c, houses, template, selected) && HousesOk(c, houses) && id in houses
    ensures var d := Deselected(houses, selected); d[id := d[id].(isSelected := true)] == SelectedOnly(houses, id)
  {
    var d := Deselected(houses, selected);
    var r := SelectedOnly(houses, id);
    var u := d[id := d[id].(isSelected := true)];
    assert d.Keys == houses.Keys;
    forall j | j in houses
      ensures u[j] == r[j]
    {
      if j != id {
        assert d[j] == houses[j].(isSelected := false) by {
          assert houses[j].isSelected <==> selected == Some(j);
        }
      }
    }
  }

  /** Clearing the selection keeps the record consistent and leaves no house flagged. */
  lemma DeselectRecord(c: Catalog, houses: map<InstanceId, Instance>, template: Option<TemplateRef>,
                       selected: Option<InstanceId>, timelines: map<InstanceId, Animation>, issued: set<InstanceId>)
    requires ConsistentRecord(c, houses, template, selected, timelines, issued)
    ensures ConsistentRecord(c, Deselected(houses, selected), template, None, timelines, issued)
    ensures NoneSelected(Deselected(houses, selected))
    ensures Deselected(houses, selected).Keys == houses.Keys
    ensures forall e :: SettledHouses(houses, e) ==> SettledHouses(Deselected(houses, selected), e)
  {
    if Truthy(selected) && selected.value in houses {
      var x := selected.value;
      var h := houses[x := houses[x].(isSelected := false)];
      InstanceOkIgnoresFlags(c, houses[x], false, houses[x].isBuilt, houses[x].isAnimating);
      assert houses[x].(isSelected := false) == houses[x].(isSelected := false, isBuilt := houses[x].isBuilt, isAnimating := houses[x].isAnimating);
      HousesOkStore(c, houses, x, houses[x].(isSelected := false));
      assert forall j :: j in h && j != x ==> h[j] == houses[j];
      assert NoneSelected(h) by {
        forall j | j in h
          ensures !h[j].isSelected
        {
          if j != x { assert h[j] == houses[j]; }
        }
      }
      assert TimelinesOk(h, timelines) by {
        forall j | j in h
          ensures h[j].isAnimating <==> j in timelines
        {
          if j != x { assert h[j] == houses[j]; }
        }
        forall j | j in timelines
          ensures j in h && TimelineFits(timelines[j], h[j])
        {
          if j != x { assert h[j] == houses[j]; }
        }
      }
      forall e | SettledHouses(houses, e)
        ensures SettledHouses(h, e)
      {
        forall j | j in h && e != Some(j)
          ensures h[j].isBuilt || h[j].isAnimating
        {
          if j != x { assert h[j] == houses[j]; }
        }
      }
    }
  }

  /** Flagging a stored, built house as the selection, with nothing selected or pending before,
      keeps the record consistent. */
  lemma SelectRecord(c: Catalog, houses: map<InstanceId, Instance>, timelines: map<InstanceId, Animation>,
                     issued: set<InstanceId>, id: InstanceId)
    requires ConsistentRecord(c, houses, None, None, timelines, issued)
    requires id in houses && houses[id].isBuilt
    ensures ConsistentRecord(c, houses[id := houses[id].(isSelected := true)], None, Some(id), timelines, issued)
  {
    var h := houses[id := houses[id].(isSelected := true)];
    InstanceOkIgnoresFlags(c, houses[id], true, houses[id].isBuilt, houses[id].isAnimating);
    assert houses[id].(isSelected := true) == houses[id].(isSelected := true, isBuilt := houses[id].isBuilt, isAnimating := houses[id].isAnimating);
    HousesOkStore(c, houses, id, houses[id].(isSelected := true));
    assert SelectionOk(c, h, None, Some(id)) by {
      forall j | j in h
        ensures h[j].isSelected <==> Some(id) == Some(j)
      {
        if j != id { assert h[j] == houses[j]; }
      }
    }
    assert TimelinesOk(h, timelines) by {
      forall j | j in h
        ensures h[j].isAnimating <==> j in timelines
      {
        if j != id { assert h[j] == houses[j]; }
      }
      forall j | j in timelines
        ensures j in h && TimelineFits(timelines[j], h[j])
      {
        if j != id { assert h[j] == houses[j]; }
      }
    }
  }

  class AppState {
    /** buildingTemplates, read by every operation and never changed. */
    const catalog: Catalog
    var placedHouses: map<InstanceId, Instance>
    var roadSegments: seq<RoadSegment>
    var selectedTemplateInfo: Option<TemplateRef>
    var selectedInstanceId: Option<InstanceId>
    var isDragging: bool
    var dragInstanceId: Option<InstanceId>
    /** controls.enabled of the orbit controls. */
    var controlsEnabled: bool
    /** The move ghost mesh's position: the drop target a drag has reached. */
    var ghostPosition: Vec3
    var timelines: map<InstanceId, Animation>
    /** Every id uuid.v4 has handed out so far. */
    ghost var issuedIds: set<InstanceId>

    /** The invariant of the record (ConsistentRecord) over this object's fields. */
    ghost predicate Consistent()
      reads this`placedHouses, this`selectedTemplateInfo, this`selectedInstanceId, this`timelines, this`issuedIds
    {
      ConsistentRecord(catalog, placedHouses, selectedTemplateInfo, selectedInstanceId, timelines, issuedIds)
    }

    ghost predicate Settled()
      reads this`placedHouses
    {
      SettledHouses(placedHouses, None)
    }

    /** Settled, except possibly for the house x (the one being placed). */
    ghost predicate SettledBut(x: InstanceId)
      reads this`placedHouses
    {
      SettledHouses(placedHouses, Some(x))
    }

    ghost predicate Valid()
      reads this`placedHouses, this`selectedTemplateInfo, this`selectedInstanceId, this`timelines, this`issuedIds
    {
      Consistent() && Settled()
    }

    /** The initial record: nothing placed, no roads, nothing pending, selected or dragged. */
    constructor(catalog: Catalog)
      ensures this.catalog == catalog
      ensures placedHouses == map[] && roadSegments == [] && timelines == map[]
      ensures selectedTemplateInfo == None && selectedInstanceId == None
      ensures !isDragging && dragInstanceId == None && controlsEnabled
      ensures ghostPosition == Vec3(0.0, 0.0, 0.0)
      ensures Valid()
    {
      this.catalog := catalog;
      placedHouses := map[];
      roadSegments := [];
      selectedTemplateInfo := None;
      selectedInstanceId := None;
      isDragging := false;
      dragInstanceId := None;
      controlsEnabled := true;
      ghostPosition := Vec3(0.0, 0.0, 0.0);
      timelines := map[];
      issuedIds := {};
    }

    /** The writes to placedHouses and to the timelines of one step, when the record they make is
        consistent. */
    method Store(houses: map<InstanceId, Instance>, timelines: map<InstanceId, Animation>)
      requires ConsistentRecord(catalog, houses, selectedTemplateInfo, selectedInstanceId, timelines, issuedIds)
      modifies this`placedHouses, this`timelines
      ensures placedHouses == houses && this.timelines == timelines
      ensures Consistent()
    {
      placedHouses := houses;
      this.timelines := timelines;
    }

    /** The writes to placedHouses and to selectedInstanceId of one selection step, when the record
        they make is consistent. */
    method StoreSelection(houses: map<InstanceId, Instance>, selected: Option<InstanceId>)
      requires ConsistentRecord(catalog, houses, selectedTemplateInfo, selected, timelines, issuedIds)
      modifies this`placedHouses, this`selectedInstanceId
      ensures placedHouses == houses && selectedInstanceId == selected
      ensures Consistent()
    {
      placedHouses := houses;
      selectedInstanceId := selected;
    }

    /** selectedTemplateInfo = { id, index }: with no instance selected, a catalog variation becomes
        the pending template. */
    method StoreTemplate(template: TemplateRef)
      requires Consistent() && selectedInstanceId == None && ValidRef(catalog, template.id, template.index)
      modifies this`selectedTemplateInfo
      ensures selectedTemplateInfo == Some(template)
      ensures Consistent()
    {
      selectedTemplateInfo := Some(template);
    }

    /** roadSegments.push(mesh). */
    method AddRoadSegment(r: RoadSegment)
      modifies this`roadSegments
      ensures roadSegments == old(roadSegments) + [r]
    {
      roadSegments := roadSegments + [r];
    }

    /** isAnyAnimationRunning: some placed house is animating. */
    predicate IsAnyAnimationRunning(): (running: bool)
      reads this`placedHouses
      ensures running <==> exists id :: id in placedHouses && placedHouses[id].isAnimating
      ensures placedHouses == map[] ==> !running
    {
      exists h :: h in placedHouses.Values && h.isAnimating
    }
  }

  /** In a consistent state an animation runs exactly when some timeline is registered;
      with no houses none runs. */
  lemma AnimationRunningIffTimeline(s: AppState)
    requires s.Consistent()
    ensures s.IsAnyAnimationRunning() <==> s.timelines != map[]
    ensures s.placedHouses == map[] ==> !s.IsAnyAnimationRunning()
  {
    if s.timelines != map[] {
      var id :| id in s.timelines;
      assert s.placedHouses[id].isAnimating;
    }
  }

  /** Each stored house is found under its own id, and a selected id always names a stored, built house. */
  lemma StoredUnderOwnId(s: AppState, id: InstanceId)
    requires s.Consistent() && id in s.placedHouses
    ensures s.placedHouses[id].instanceId == id
    ensures s.placedHouses[id].isSelected ==> s.selectedInstanceId == Some(id) && s.placedHouses[id].isBuilt
  {
  }

  /** At most one house is selected. */
  lemma AtMostOneSelected(s: AppState, a: InstanceId, b: InstanceId)
    requires s.Consistent() && a in s.placedHouses && b in s.placedHouses
    requires s.placedHouses[a].isSelected && s.placedHouses[b].isSelected
    ensures a == b
  {
  }

  /** Start-up: the initial record, then the three roads pushed in order. */
  method Startup(catalog: Catalog) returns (s: AppState)
    ensures fresh(s) && s.catalog == catalog
    ensures s.roadSegments == StartupRoads()
    ensures s.placedHouses == map[] && s.timelines == map[]
    ensures s.selectedTemplateInfo == None && s.selectedInstanceId == None
    ensures !s.isDragging && s.dragInstanceId == None && s.controlsEnabled
    ensures s.ghostPosition == Vec3(0.0, 0.0, 0.0)
    ensures s.Valid()
  {
    s := new AppState(catalog);
    s.AddRoadSegment(CreateRoadSegment(12.0, 300.0, Vec3(0.0, 0.0, 0.0), 0));
    s.AddRoadSegment(CreateRoadSegment(200.0, 10.0, Vec3(0.0, 0.0, -60.0), 0));
    s.AddRoadSegment(CreateRoadSegment(200.0, 10.0, Vec3(0.0, 0.0, 60.0), 0));
  }
}
