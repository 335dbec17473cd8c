/**
 * The rules inside js/ui.js: which action buttons show and are enabled, the
 * status label and order of the placed-houses list, and what a click on a list
 * row does. DOM construction, names and styles are not modelled; the template
 * item key is module ItemKeys.
 */
module Ui {
  import opened Wrappers
  import opened InstanceUtils
  import opened Templates
  import opened State
  import opened Animations
  import opened Selection
  import opened Actions

  /** What updateActionButtons writes: display and disabled of the three buttons. */
  datatype ActionButtons = ActionButtons(
    cancelVisible: bool, rotateVisible: bool, rotateDisabled: bool, unbuildVisible: bool, unbuildDisabled: bool)

  /** updateActionButtons: cancel shows with a pending template; rotate and unbuild show when the
      selected id names a stored house, and are enabled only while that house is built and idle. */
  function ButtonsFor(houses: map<InstanceId, Instance>, template: Option<TemplateRef>,
                      selected: Option<InstanceId>): (b: ActionButtons)
    ensures b.cancelVisible <==> template.Some?
    ensures b.rotateVisible == b.unbuildVisible && b.rotateDisabled == b.unbuildDisabled
    ensures b.rotateVisible <==> selected.Some? && selected.value != "" && selected.value in houses
    ensures !b.rotateVisible ==> b.rotateDisabled
    ensures !b.rotateDisabled <==>
      b.rotateVisible && houses[selected.value].isBuilt && !houses[selected.value].isAnimating
  {
    var isInstanceSelected := Truthy(selected) && selected.value in houses;
    var canInteract := isInstanceSelected && houses[selected.value].isBuilt && !houses[selected.value].isAnimating;
    ActionButtons(template.Some?, isInstanceSelected, !canInteract, isInstanceSelected, !canInteract)
  }

  function Buttons(s: AppState): ActionButtons
    reads s
  {
    ButtonsFor(s.placedHouses, s.selectedTemplateInfo, s.selectedInstanceId)
  }

  /** The cancel button and the instance buttons never show together. */
  lemma CancelAndInstanceButtonsExclusive(s: AppState)
    requires s.Consistent()
    ensures !(Buttons(s).cancelVisible && Buttons(s).rotateVisible)
    ensures Buttons(s).rotateVisible == Buttons(s).unbuildVisible
  {
  }

  /** The instance buttons show exactly when some stored house carries the selected flag. */
  lemma InstanceButtonsFollowSelection(s: AppState)
    requires s.Consistent()
    ensures Buttons(s).rotateVisible <==> exists id :: id in s.placedHouses && s.placedHouses[id].isSelected
  {
    if Buttons(s).rotateVisible {
      assert s.placedHouses[s.selectedInstanceId.value].isSelected;
    }
  }

  /** Rotate and unbuild are enabled exactly when a click on them gets past the actions' guard. */
  lemma EnabledButtonsPassActionGuard(s: AppState)
    requires s.Consistent()
    ensures var b := Buttons(s);
      && (b.rotateVisible && !b.rotateDisabled <==> ActionGuard(s.placedHouses, s.selectedInstanceId))
      && (b.unbuildVisible && !b.unbuildDisabled <==> ActionGuard(s.placedHouses, s.selectedInstanceId))
  {
  }

  /** The status text of a list row. */
  function StatusLabel(inst: Instance): (text: string)
    ensures text == "Animating..." <==> inst.isAnimating
    ensures text == "Built" <==> inst.isBuilt && !inst.isAnimating
    ensures text == "Unbuilt" <==> !inst.isBuilt && !inst.isAnimating
  {
    if inst.isAnimating then "Animating..." else if inst.isBuilt then "Built" else "Unbuilt"
  }

  /** In a settled record no row reads "Unbuilt", and a row reads "Built" exactly when a click on it
      selects the house. */
  lemma SettledRowLabels(s: AppState, id: InstanceId)
    requires s.Valid() && id in s.placedHouses
    ensures StatusLabel(s.placedHouses[id]) != "Unbuilt"
    ensures StatusLabel(s.placedHouses[id]) == "Built" <==> CanAnimate(s.placedHouses, id, true)
  {
  }

  // ---------------------------------------------------------------------------
  // The order of the list: Array.prototype.sort on the keys, which compares strings
  // code unit by code unit, a proper prefix first.

  predicate StrLt(a: string, b: string)
    decreases |a|
  {
    if a == [] then b != []
    else if b == [] then false
    else if a[0] != b[0] then a[0] < b[0]
    else StrLt(a[1..], b[1..])
  }

  lemma {:induction false} StrLtIrreflexive(a: string)
    ensures !StrLt(a, a)
    decreases |a|
  {
    if a != [] {
      StrLtIrreflexive(a[1..]);
    }
  }

  lemma {:induction false} StrLtTransitive(a: string, b: string, c: string)
    requires StrLt(a, b) && StrLt(b, c)
    ensures StrLt(a, c)
    decreases |a|
  {
    if a != [] && a[0] == b[0] && b[0] == c[0] {
      StrLtTransitive(a[1..], b[1..], c[1..]);
    }
  }

  lemma {:induction false} StrLtTotal(a: string, b: string)
    ensures a == b || StrLt(a, b) || StrLt(b, a)
    decreases |a|
  {
    if a != [] && b != [] && a[0] == b[0] {
      StrLtTotal(a[1..], b[1..]);
      if a[1..] == b[1..] {
        assert a == [a[0]] + a[1..] && b == [b[0]] + b[1..];
      }
    }
  }

  /** The least id of a non-empty set, in the sort's order. */
  method LeastId(ids: set<InstanceId>) returns (m: InstanceId)
    requires ids != {}
    ensures m in ids && forall x :: x in ids && x != m ==> StrLt(m, x)
  {
    m :| m in ids;
    var rest := ids - {m};
    while rest != {}
      invariant m in ids && m !in rest && rest <= ids
      invariant forall x :: x in ids && x !in rest && x != m ==> StrLt(m, x)
      decreases rest
    {
      var x :| x in rest;
      rest := rest - {x};
      StrLtTotal(m, x);
      if StrLt(x, m) {
        forall y | y in ids && y !in rest && y != x
          ensures StrLt(x, y)
        {
          if y != m {
            StrLtTransitive(x, m, y);
          }
        }
        m := x;
      }
    }
  }

  /** Object.keys(placedHouses).sort(): every key once, in strictly ascending order. */
  method SortedIds(houses: map<InstanceId, Instance>) returns (ids: seq<InstanceId>)
    ensures forall i, j :: 0 <= i < j < |ids| ==> StrLt(ids[i], ids[j])
    ensures forall x :: x in houses <==> x in ids
    ensures |ids| == |houses.Keys|
  {
    ids := [];
    var rest := houses.Keys;
    while rest != {}
      invariant rest <= houses.Keys
      invariant forall x :: x in houses <==> x in ids || x in rest
      invariant forall i, x :: 0 <= i < |ids| && x in rest ==> StrLt(ids[i], x)
      invariant forall i, j :: 0 <= i < j < |ids| ==> StrLt(ids[i], ids[j])
      invariant |ids| + |rest| == |houses.Keys|
      decreases rest
    {
      var m := LeastId(rest);
      ids := ids + [m];
      rest := rest - {m};
    }
  }

  /** One entry of the placed-houses list. */
  datatype ListRow = Placeholder | Row(id: InstanceId, status: string, selected: bool)

  /** updatePlacedHousesUI: the placeholder alone when nothing is placed; otherwise one row per
      house, in ascending id order, with its status label and selected flag. */
  method PlacedHousesRows(s: AppState) returns (rows: seq<ListRow>)
    ensures s.placedHouses == map[] ==> rows == [Placeholder]
    ensures s.placedHouses != map[] ==>
      && |rows| == |s.placedHouses.Keys|
      && (forall i :: 0 <= i < |rows| ==>
            (rows[i].Row? && rows[i].id in s.placedHouses
             && rows[i].status == StatusLabel(s.placedHouses[rows[i].id])
             && rows[i].selected == s.placedHouses[rows[i].id].isSelected))
      && (forall i, j :: 0 <= i < j < |rows| ==> StrLt(rows[i].id, rows[j].id))
      && (forall id :: id in s.placedHouses ==> exists i :: 0 <= i < |rows| && rows[i].id == id)
  {
    var sortedIds := SortedIds(s.placedHouses);
    if |sortedIds| == 0 {
      assert forall x :: x !in s.placedHouses;
      assert s.placedHouses == map[];
      return [Placeholder];
    }
    rows := [];
    for i := 0 to |sortedIds|
      invariant |rows| == i
      invariant forall k :: 0 <= k < i ==> rows[k] == Row(sortedIds[k], StatusLabel(s.placedHouses[sortedIds[k]]),
                                                         s.placedHouses[sortedIds[k]].isSelected)
    {
      var instanceId := sortedIds[i];
      var instance := s.placedHouses[instanceId];
      rows := rows + [Row(instanceId, StatusLabel(instance), instance.isSelected)];
    }
    forall id | id in s.placedHouses
      ensures exists i :: 0 <= i < |rows| && rows[i].id == id
    {
      var i :| 0 <= i < |sortedIds| && sortedIds[i] == id;
      assert rows[i].id == id;
    }
  }

  /** A click on a list row selects the house only when it is built and idle. */
  method ClickListRow(s: AppState, id: InstanceId)
    requires s.Consistent()
    modifies s`placedHouses, s`selectedInstanceId, s`selectedTemplateInfo
    ensures if CanAnimate(old(s.placedHouses), id, true) then
        && s.selectedTemplateInfo == None && s.selectedInstanceId == Some(id)
        && s.placedHouses == SelectedOnly(old(s.placedHouses), id)
      else
        && s.placedHouses == old(s.placedHouses) && s.selectedInstanceId == old(s.selectedInstanceId)
        && s.selectedTemplateInfo == old(s.selectedTemplateInfo)
    ensures s.Consistent()
    ensures old(s.Settled()) ==> s.Settled()
  {
    if id in s.placedHouses && s.placedHouses[id].isBuilt && !s.placedHouses[id].isAnimating {
      SelectPlacedHouseById(s, id);
    }
  }
}
