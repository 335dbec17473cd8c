/**
 * The selection coordinator (js/selection.js): one optional pending template
 * and one optional selected instance, never both, with isSelected set on
 * exactly the selected instance. Highlight boxes, cursors, list highlighting and
 * status text are not modelled.
 */
module Selection {
  import opened Wrappers
  import opened Templates
  import opened InstanceUtils
  import opened ItemKeys
  import opened State

  /** cancelPlacementSelection: the pending template is dropped; no instance is touched. */
  method CancelPlacementSelection(s: AppState)
    requires s.Consistent()
    modifies s`selectedTemplateInfo
    ensures s.selectedTemplateInfo == None
    ensures s.Consistent()
  {
    s.selectedTemplateInfo := None;
  }

  /**
   * deselectPlacedHouse: the named house, if it is still stored, loses its flag, and the
   * selected id is always cleared, so afterwards nothing is selected.
   */
  method DeselectPlacedHouse(s: AppState)
    requires s.Consistent()
    modifies s`placedHouses, s`selectedInstanceId
    ensures s.placedHouses == Deselected(old(s.placedHouses), old(s.selectedInstanceId))
    ensures s.selectedInstanceId == None && NoneSelected(s.placedHouses)
    ensures s.placedHouses.Keys == old(s.placedHouses).Keys
    ensures s.Consistent()
    ensures old(s.Settled()) ==> s.Settled()
  {
    DeselectRecord(s.catalog, s.placedHouses, s.selectedTemplateInfo, s.selectedInstanceId, s.timelines, s.issuedIds);
    var houses := s.placedHouses;
    if Truthy(s.selectedInstanceId) && s.selectedInstanceId.value in houses {
      var id := s.selectedInstanceId.value;
      houses := houses[id := houses[id].(isSelected := false)];
    }
    s.StoreSelection(houses, None);
  }

  /**
   * selectPlacedHouseById: only an existing, built, idle house can be selected. Selecting it
   * drops any pending template; reselecting the selected house changes nothing more; otherwise
   * the previous house loses its flag and this one becomes the selected one.
   */
  method SelectPlacedHouseById(s: AppState, id: InstanceId)
    requires s.Consistent()
    modifies s`placedHouses, s`selectedInstanceId, s`selectedTemplateInfo
    ensures if id in old(s.placedHouses) && old(s.placedHouses)[id].isBuilt && !old(s.placedHouses)[id].isAnimating then
        && s.selectedTemplateInfo == None && s.selectedInstanceId == Some(id)
        && s.placedHouses == SelectedOnly(old(s.placedHouses), id)
      else
        && s.placedHouses == old(s.placedHouses) && s.selectedInstanceId == old(s.selectedInstanceId)
        && s.selectedTemplateInfo == old(s.selectedTemplateInfo)
    ensures s.Consistent()
    ensures old(s.Settled()) ==> s.Settled()
  {
    if id !in s.placedHouses || !s.placedHouses[id].isBuilt || s.placedHouses[id].isAnimating {
      return;
    }
    ghost var c, houses, template, selected := s.catalog, s.placedHouses, s.selectedTemplateInfo, s.selectedInstanceId;
    assert SelectionOk(c, houses, template, selected) && HousesOk(c, houses);
    if s.selectedTemplateInfo.Some? {
      CancelPlacementSelection(s);
    }
    if s.selectedInstanceId == Some(id) {
      SelectedOnlyWhenSelected(c, houses, template, id);
      return;
    }
    DeselectPlacedHouse(s);
    MarkSelected(s, id);
    SelectedOnlyAfterReselect(c, houses, template, selected, id);
  }

  /** The last step of selectPlacedHouseById: with nothing selected or pending, the built house id
      becomes the selected one and carries the flag. */
  method MarkSelected(s: AppState, id: InstanceId)
    requires s.Consistent() && s.selectedTemplateInfo == None && s.selectedInstanceId == None
    requires id in s.placedHouses && s.placedHouses[id].isBuilt
    modifies s`placedHouses, s`selectedInstanceId
    ensures s.placedHouses == old(s.placedHouses)[id := old(s.placedHouses)[id].(isSelected := true)]
    ensures s.selectedInstanceId == Some(id)
    ensures s.Consistent()
    ensures old(s.Settled()) ==> s.Settled()
  {
    SelectRecord(s.catalog, s.placedHouses, s.timelines, s.issuedIds, id);
    var selected := s.placedHouses[id].(isSelected := true);
    if s.Settled() { SettledAfterStore(s.placedHouses, None, id, selected); }
    s.StoreSelection(s.placedHouses[id := selected], Some(id));
  }

  /**
   * selectTemplateByItemKey: ignored while anything animates; otherwise any instance is
   * deselected and the pair read from "templateId:index" becomes the pending template.
   * Keys come from the template list, so they name catalog variations.
   */
  method SelectTemplateByItemKey(s: AppState, itemKey: string)
    requires s.Consistent() && KeyNamesVariation(s.catalog, itemKey)
    modifies s`placedHouses, s`selectedInstanceId, s`selectedTemplateInfo
    ensures if old(s.IsAnyAnimationRunning()) then
        && s.placedHouses == old(s.placedHouses) && s.selectedInstanceId == old(s.selectedInstanceId)
        && s.selectedTemplateInfo == old(s.selectedTemplateInfo)
      else
        && s.placedHouses == Deselected(old(s.placedHouses), old(s.selectedInstanceId))
        && s.selectedInstanceId == None && NoneSelected(s.placedHouses)
        && s.placedHouses.Keys == old(s.placedHouses).Keys
        && s.selectedTemplateInfo == Some(TemplateRef(ParseItemKey(itemKey).0, ParseItemKey(itemKey).1.value))
    ensures s.Consistent()
    ensures old(s.Settled()) ==> s.Settled()
  {
    if s.IsAnyAnimationRunning() {
      return;
    }
    DeselectPlacedHouse(s);
    var (templateId, variationIndex) := ParseItemKey(itemKey);
    s.StoreTemplate(TemplateRef(templateId, variationIndex.value));
  }
}
