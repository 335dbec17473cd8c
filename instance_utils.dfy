/**
 * The data of a placed house and how it is created (js/instanceUtils.js):
 * the brick list with its grass plate, building elements and fence, sorted by
 * build order, and the axis-aligned box of the rotated footprint.
 */
module InstanceUtils {
  import opened Constants
  import opened Geometry
  import opened Templates
  import opened LegoUtils

  type InstanceId = string

  /**
   * One brick of an instance: its size and colour, its studs, and the userData
   * the editor keeps (originalRelPos, finalPosition, finalRotation.y, buildOrder).
   * The animated position, rotation, scale and visibility are not modelled.
   */
  datatype Brick = Brick(
    width: nat, depth: nat, height: real, color: int, studs: seq<Vec3>,
    relPos: Vec3, finalPos: Vec3, finalRotY: Quarter, buildOrder: real)

  /** A placed house (the record createHouseInstanceData returns). */
  datatype Instance = Instance(
    templateId: TemplateId, variationIndex: nat, instanceId: InstanceId,
    position: Vec3, rotation: Quarter, bricks: seq<Brick>,
    isBuilt: bool, isAnimating: bool, isSelected: bool)

  /** A brick's final x and z are the centre plus its rotated offset, and its final yaw is the instance's. */
  predicate BrickPlaced(b: Brick, center: Vec3, k: Quarter) {
    && b.finalPos.x == center.x + RotX(b.relPos, k)
    && b.finalPos.z == center.z + RotZ(b.relPos, k)
    && b.finalRotY == k
    && b.buildOrder == b.finalPos.y
  }

  predicate SortedByBuildOrder(s: seq<Brick>) {
    forall i, j :: 0 <= i < j < |s| ==> s[i].buildOrder <= s[j].buildOrder
  }

  // ---------------------------------------------------------------------------
  // The bricks createHouseInstanceData adds, in the order it adds them.

  /** createAndAddBrick's record before the sort: placed for rotation 0 at the placement position. */
  function MakeBrick(w: nat, d: nat, h: real, lx: real, ly: real, lz: real, color: int,
                     isFenceOrGrass: bool, placement: Vec3): (b: Brick)
    ensures b.width == w && b.depth == d && b.height == h && b.color == color
    ensures b.relPos == Vec3(lx, ly, lz) && BrickPlaced(b, placement, 0)
    ensures b.finalPos.y == ly + (if isFenceOrGrass then 0.0 else PLATE_HEIGHT)
  {
    var finalY := ly + (if isFenceOrGrass then 0.0 else PLATE_HEIGHT);
    Brick(w, d, h, color, StudLayout(w, d, h, color),
          Vec3(lx, ly, lz), Vec3(placement.x + lx, finalY, placement.z + lz), 0, finalY)
  }

  function GrassBrick(v: Variation, placement: Vec3): Brick {
    MakeBrick(v.baseWidth, v.baseDepth, PLATE_HEIGHT, 0.0, PLATE_HEIGHT / 2.0, 0.0, LEGO_DARK_GREEN, true, placement)
  }

  function ElementBrick(e: Element, placement: Vec3): Brick {
    MakeBrick(e.w, e.d, e.h, e.lx, e.ly, e.lz, e.color, false, placement)
  }

  function ElementBricks(es: seq<Element>, placement: Vec3): (r: seq<Brick>)
    ensures |r| == |es| && forall i :: 0 <= i < |es| ==> r[i] == ElementBrick(es[i], placement)
  {
    if es == [] then [] else ElementBricks(es[..|es| - 1], placement) + [ElementBrick(es[|es| - 1], placement)]
  }

  const FENCE_OFFSET: real := 0.5
  const GATE_WIDTH: nat := 3

  /** gateStart = -Math.floor(gateWidth / 2) and gateEnd = gateStart + gateWidth: [-1, 2). */
  function GateStart(): int { -((GATE_WIDTH as real / 2.0).Floor) }
  function GateEnd(): int { GateStart() + GATE_WIDTH }

  function HalfW(v: Variation): real { v.baseWidth as real / 2.0 }
  function HalfD(v: Variation): real { v.baseDepth as real / 2.0 }
  function FenceRelY(): real { BRICK_HEIGHT / 2.0 + PLATE_HEIGHT }
  function FrontZ(v: Variation): real { -HalfD(v) + FENCE_OFFSET }
  function BackZ(v: Variation): real { HalfD(v) - FENCE_OFFSET }
  function LeftX(v: Variation): real { -HalfW(v) + FENCE_OFFSET }
  function RightX(v: Variation): real { HalfW(v) - FENCE_OFFSET }

  /** The x of the i-th pass of the front/back fence loop. */
  function FenceX(v: Variation, i: int): real { -HalfW(v) + FENCE_OFFSET + i as real }

  /** The z of the i-th pass of the side fence loop (corners skipped). */
  function SideZ(v: Variation, i: int): real { -HalfD(v) + FENCE_OFFSET + 1.0 + i as real }

  predicate OutsideGate(x: real) { x < GateStart() as real || x >= GateEnd() as real }

  function FenceBrick(x: real, z: real, placement: Vec3): Brick {
    MakeBrick(1, 1, BRICK_HEIGHT, x, FenceRelY(), z, LEGO_WHITE, true, placement)
  }

  /** One pass of the front/back loop: a front brick unless x is in the gate, then a back brick. */
  function FenceRow(v: Variation, x: real, placement: Vec3): seq<Brick> {
    (if OutsideGate(x) then [FenceBrick(x, FrontZ(v), placement)] else []) + [FenceBrick(x, BackZ(v), placement)]
  }

  function FenceRows(v: Variation, n: nat, placement: Vec3): seq<Brick> {
    if n == 0 then [] else FenceRows(v, n - 1, placement) + FenceRow(v, FenceX(v, n - 1), placement)
  }

  /** One pass of the side loop: a left and a right brick. */
  function SideColumn(v: Variation, z: real, placement: Vec3): seq<Brick> {
    [FenceBrick(LeftX(v), z, placement), FenceBrick(RightX(v), z, placement)]
  }

  function SideColumns(v: Variation, n: nat, placement: Vec3): seq<Brick> {
    if n == 0 then [] else SideColumns(v, n - 1, placement) + SideColumn(v, SideZ(v, n - 1), placement)
  }

  /** How many passes the side loop makes: z < halfD - 0.5 holds for baseDepth - 2 passes. */
  function SideCount(v: Variation): nat {
    if v.baseDepth >= 2 then v.baseDepth - 2 else 0
  }

  /** All bricks of a new instance, in the order they are pushed. */
  function CreationOrder(v: Variation, placement: Vec3): seq<Brick> {
    [GrassBrick(v, placement)] + ElementBricks(v.elements, placement)
      + FenceRows(v, v.baseWidth, placement) + SideColumns(v, SideCount(v), placement)
  }

  // ---------------------------------------------------------------------------
  // The sort by build order (Array.prototype.sort with a - b on buildOrder, stable).

  lemma ConsSorted(h: Brick, t: seq<Brick>)
    requires SortedByBuildOrder(t)
    requires forall x :: x in t ==> h.buildOrder <= x.buildOrder
    ensures SortedByBuildOrder([h] + t)
  {
    forall i, j | 0 <= i < j < |[h] + t|
      ensures ([h] + t)[i].buildOrder <= ([h] + t)[j].buildOrder
    {
      if i > 0 {
        assert ([h] + t)[i] == t[i - 1];
      }
      assert ([h] + t)[j] == t[j - 1];
    }
  }

  /** b inserted before the first brick whose build order is not smaller (keeps equal keys stable). */
  function InsertByBuildOrder(b: Brick, s: seq<Brick>): seq<Brick> {
    if s == [] then [b]
    else if b.buildOrder <= s[0].buildOrder then [b] + s
    else [s[0]] + InsertByBuildOrder(b, s[1..])
  }

  lemma {:induction false} InsertKeepsElements(b: Brick, s: seq<Brick>)
    ensures multiset(InsertByBuildOrder(b, s)) == multiset(s) + multiset{b}
  {
    if s != [] && b.buildOrder > s[0].buildOrder {
      InsertKeepsElements(b, s[1..]);
      assert s == [s[0]] + s[1..];
    }
  }

  lemma {:induction false} InsertKeepsOrder(b: Brick, s: seq<Brick>)
    requires SortedByBuildOrder(s)
    ensures SortedByBuildOrder(InsertByBuildOrder(b, s))
  {
    if s == [] {
    } else if b.buildOrder <= s[0].buildOrder {
      ConsSorted(b, s);
    } else {
      var rest := InsertByBuildOrder(b, s[1..]);
      InsertKeepsOrder(b, s[1..]);
      InsertKeepsElements(b, s[1..]);
      forall x | x in rest
        ensures s[0].buildOrder <= x.buildOrder
      {
        assert x in multiset(rest);
        if x != b {
          assert x in multiset(s[1..]);
        }
      }
      ConsSorted(s[0], rest);
    }
  }

  /** The bricks in non-decreasing build order, a permutation of the input. */
  function SortByBuildOrder(s: seq<Brick>): (r: seq<Brick>)
    ensures SortedByBuildOrder(r)
    ensures multiset(r) == multiset(s)
  {
    if s == [] then []
    else
      var sortedTail := SortByBuildOrder(s[1..]);
      InsertHead(s, sortedTail);
      InsertByBuildOrder(s[0], sortedTail)
  }

  /** Inserting the head into the sorted rest of a list gives a sorted permutation of the list. */
  lemma InsertHead(s: seq<Brick>, sortedTail: seq<Brick>)
    requires s != [] && SortedByBuildOrder(sortedTail) && multiset(sortedTail) == multiset(s[1..])
    ensures SortedByBuildOrder(InsertByBuildOrder(s[0], sortedTail))
    ensures multiset(InsertByBuildOrder(s[0], sortedTail)) == multiset(s)
  {
    InsertKeepsOrder(s[0], sortedTail);
    InsertKeepsElements(s[0], sortedTail);
    assert s == [s[0]] + s[1..];
  }

  // ---------------------------------------------------------------------------
  // createHouseInstanceData

  /** The front/back loop test x < halfW holds exactly for the first baseWidth passes. */
  lemma FenceLoopBound(v: Variation, i: int)
    ensures FenceX(v, i) < HalfW(v) <==> i < v.baseWidth
  {
  }

  /** The side loop test z < halfD - 0.5 holds exactly for the first SideCount passes. */
  lemma SideLoopBound(v: Variation, j: nat)
    ensures SideZ(v, j) < HalfD(v) - FENCE_OFFSET <==> j < SideCount(v)
  {
  }

  method CreateAndAddBrick(w: nat, d: nat, h: real, lx: real, ly: real, lz: real, color: int,
                           isFenceOrGrass: bool, placement: Vec3) returns (b: Brick)
    ensures b == MakeBrick(w, d, h, lx, ly, lz, color, isFenceOrGrass, placement)
  {
    var studs := CreateLegoBrick(w, d, h, color);
    var finalY := ly + (if isFenceOrGrass then 0.0 else PLATE_HEIGHT);
    b := Brick(w, d, h, color, studs, Vec3(lx, ly, lz), Vec3(placement.x + lx, finalY, placement.z + lz), 0, finalY);
  }

  /** The forEach over the variation's elements: one brick per element, in order. */
  method AddElementBricks(v: Variation, placement: Vec3, bricks: seq<Brick>) returns (out: seq<Brick>)
    ensures out == bricks + ElementBricks(v.elements, placement)
  {
    out := bricks;
    for k := 0 to |v.elements|
      invariant out == bricks + ElementBricks(v.elements[..k], placement)
    {
      var e := v.elements[k];
      var b := CreateAndAddBrick(e.w, e.d, e.h, e.lx, e.ly, e.lz, e.color, false, placement);
      assert v.elements[..k + 1][..k] == v.elements[..k];
      out := out + [b];
    }
    assert v.elements[..|v.elements|] == v.elements;
  }

  /** The front/back fence loop: x from -halfW + 0.5 while x < halfW, the front brick skipped in the gate. */
  method AddFenceRows(v: Variation, placement: Vec3, bricks: seq<Brick>) returns (out: seq<Brick>)
    ensures out == bricks + FenceRows(v, v.baseWidth, placement)
  {
    out := bricks;
    var fenceHeight := BRICK_HEIGHT;
    var fenceRelY := fenceHeight / 2.0 + PLATE_HEIGHT;
    var halfW := v.baseWidth as real / 2.0;
    var halfD := v.baseDepth as real / 2.0;
    var gateStart := -((GATE_WIDTH as real / 2.0).Floor);
    var gateEnd := gateStart + GATE_WIDTH;
    var x := -halfW + FENCE_OFFSET;
    ghost var i: nat := 0;
    while x < halfW
      invariant x == FenceX(v, i) && i <= v.baseWidth
      invariant out == bricks + FenceRows(v, i, placement)
      decreases v.baseWidth - i
    {
      FenceLoopBound(v, i);
      ghost var before := out;
      if x < gateStart as real || x >= gateEnd as real {
        var b := CreateAndAddBrick(1, 1, fenceHeight, x, fenceRelY, -halfD + FENCE_OFFSET, LEGO_WHITE, true, placement);
        out := out + [b];
      }
      var b := CreateAndAddBrick(1, 1, fenceHeight, x, fenceRelY, halfD - FENCE_OFFSET, LEGO_WHITE, true, placement);
      out := out + [b];
      assert out == before + FenceRow(v, x, placement);
      x := x + 1.0;
      i := i + 1;
    }
    FenceLoopBound(v, i);
  }

  /** The side fence loop: z from -halfD + 1.5 while z < halfD - 0.5, a left and a right brick each. */
  method AddSideColumns(v: Variation, placement: Vec3, bricks: seq<Brick>) returns (out: seq<Brick>)
    ensures out == bricks + SideColumns(v, SideCount(v), placement)
  {
    out := bricks;
    var fenceHeight := BRICK_HEIGHT;
    var fenceRelY := fenceHeight / 2.0 + PLATE_HEIGHT;
    var halfW := v.baseWidth as real / 2.0;
    var halfD := v.baseDepth as real / 2.0;
    var z := -halfD + FENCE_OFFSET + 1.0;
    ghost var j: nat := 0;
    while z < halfD - FENCE_OFFSET
      invariant z == SideZ(v, j) && j <= SideCount(v)
      invariant out == bricks + SideColumns(v, j, placement)
      decreases SideCount(v) - j
    {
      SideLoopBound(v, j);
      ghost var before := out;
      var b := CreateAndAddBrick(1, 1, fenceHeight, -halfW + FENCE_OFFSET, fenceRelY, z, LEGO_WHITE, true, placement);
      out := out + [b];
      b := CreateAndAddBrick(1, 1, fenceHeight, halfW - FENCE_OFFSET, fenceRelY, z, LEGO_WHITE, true, placement);
      out := out + [b];
      assert out == before + SideColumn(v, z, placement);
      z := z + 1.0;
      j := j + 1;
    }
    SideLoopBound(v, j);
  }

  /**
   * A new, unbuilt and unselected instance at the placement position with rotation 0,
   * whose bricks are those of CreationOrder sorted by build order.
   */
  method CreateHouseInstanceData(c: Catalog, templateId: TemplateId, variationIndex: nat,
                                 instanceId: InstanceId, placement: Vec3) returns (inst: Instance)
    requires ValidRef(c, templateId, variationIndex)
    ensures inst.templateId == templateId && inst.variationIndex == variationIndex
    ensures inst.instanceId == instanceId && inst.position == placement && inst.rotation == 0
    ensures !inst.isBuilt && !inst.isAnimating && !inst.isSelected
    ensures inst.bricks == SortByBuildOrder(CreationOrder(VariationOf(c, templateId, variationIndex), placement))
  {
    var v := c[templateId][variationIndex];
    var grassY := PLATE_HEIGHT / 2.0;
    var grass := CreateAndAddBrick(v.baseWidth, v.baseDepth, PLATE_HEIGHT, 0.0, grassY, 0.0, LEGO_DARK_GREEN, true, placement);
    var bricks := [grass];
    bricks := AddElementBricks(v, placement, bricks);
    bricks := AddFenceRows(v, placement, bricks);
    bricks := AddSideColumns(v, placement, bricks);
    assert bricks == CreationOrder(v, placement);
    bricks := SortByBuildOrder(bricks);
    inst := Instance(templateId, variationIndex, instanceId, placement, 0, bricks, false, false, false);
  }

  // ---------------------------------------------------------------------------
  // What a new instance's bricks look like.

  predicate AllPlaced(s: seq<Brick>, center: Vec3, k: Quarter) {
    forall i :: 0 <= i < |s| ==> BrickPlaced(s[i], center, k)
  }

  /** What the editor keeps true of every stored instance: its template reference resolves,
      every brick sits at the instance's position and rotation, and the bricks stay in build order. */
  predicate InstanceOk(c: Catalog, inst: Instance) {
    && ValidRef(c, inst.templateId, inst.variationIndex)
    && AllPlaced(inst.bricks, inst.position, inst.rotation)
    && SortedByBuildOrder(inst.bricks)
  }

  /** One pass of the front/back loop: its bricks are placed, keep y = ly, sit at x on the back
      row or, outside the gate, on the front row. */
  lemma FenceRowShape(v: Variation, x: real, p: Vec3)
    ensures forall b :: b in FenceRow(v, x, p) ==>
      && BrickPlaced(b, p, 0) && b.finalPos.y == b.relPos.y && b.relPos.x == x
      && (b.relPos.z == BackZ(v) || (b.relPos.z == FrontZ(v) && OutsideGate(x)))
    ensures FenceBrick(x, BackZ(v), p) in FenceRow(v, x, p)
    ensures OutsideGate(x) ==> FenceBrick(x, FrontZ(v), p) in FenceRow(v, x, p)
  {
  }

  /** The front/back loop: every brick is on the back row or on the front row outside the gate,
      keeps y = ly, and lies between the first and the last pass's x. */
  lemma {:induction false} FenceRowsShape(v: Variation, n: nat, p: Vec3)
    ensures forall b :: b in FenceRows(v, n, p) ==>
      && BrickPlaced(b, p, 0) && b.finalPos.y == b.relPos.y
      && (b.relPos.z == BackZ(v) || (b.relPos.z == FrontZ(v) && OutsideGate(b.relPos.x)))
      && FenceX(v, 0) <= b.relPos.x <= FenceX(v, n - 1)
  {
    if n > 0 {
      FenceRowsShape(v, n - 1, p);
      FenceRowShape(v, FenceX(v, n - 1), p);
      assert FenceRows(v, n, p) == FenceRows(v, n - 1, p) + FenceRow(v, FenceX(v, n - 1), p);
    }
  }

  /** Every pass adds its back brick, and its front brick exactly when x is outside the gate. */
  lemma {:induction false} FenceRowsCover(v: Variation, n: nat, p: Vec3)
    ensures forall i :: 0 <= i < n ==> FenceBrick(FenceX(v, i), BackZ(v), p) in FenceRows(v, n, p)
    ensures forall i :: 0 <= i < n && OutsideGate(FenceX(v, i)) ==>
      FenceBrick(FenceX(v, i), FrontZ(v), p) in FenceRows(v, n, p)
  {
    if n > 0 {
      FenceRowsCover(v, n - 1, p);
      var prev, row := FenceRows(v, n - 1, p), FenceRow(v, FenceX(v, n - 1), p);
      assert FenceRows(v, n, p) == prev + row;
      forall i | 0 <= i < n
        ensures FenceBrick(FenceX(v, i), BackZ(v), p) in prev + row
        ensures OutsideGate(FenceX(v, i)) ==> FenceBrick(FenceX(v, i), FrontZ(v), p) in prev + row
      {
        if i == n - 1 {
          FenceRowShape(v, FenceX(v, i), p);
        }
      }
    }
  }

  /** The side loop: every brick is on the left or right column, keeps y = ly, and lies between
      the first and the last pass's z. */
  lemma {:induction false} SideColumnsShape(v: Variation, n: nat, p: Vec3)
    ensures forall b :: b in SideColumns(v, n, p) ==>
      && BrickPlaced(b, p, 0) && b.finalPos.y == b.relPos.y
      && (b.relPos.x == LeftX(v) || b.relPos.x == RightX(v))
      && SideZ(v, 0) <= b.relPos.z <= SideZ(v, n - 1)
  {
    if n > 0 {
      SideColumnsShape(v, n - 1, p);
      assert SideColumns(v, n, p) == SideColumns(v, n - 1, p) + SideColumn(v, SideZ(v, n - 1), p);
    }
  }

  /** Every pass of the side loop adds both its left and its right brick. */
  lemma {:induction false} SideColumnsCover(v: Variation, n: nat, p: Vec3)
    ensures forall j :: 0 <= j < n ==>
      FenceBrick(LeftX(v), SideZ(v, j), p) in SideColumns(v, n, p) &&
      FenceBrick(RightX(v), SideZ(v, j), p) in SideColumns(v, n, p)
  {
    if n > 0 {
      SideColumnsCover(v, n - 1, p);
      assert SideColumns(v, n, p) == SideColumns(v, n - 1, p) + SideColumn(v, SideZ(v, n - 1), p);
    }
  }

  /** The side columns never reach the corner positions of the front and back rows. */
  lemma SideColumnsSkipCorners(v: Variation, p: Vec3)
    ensures forall b :: b in SideColumns(v, SideCount(v), p) ==> FrontZ(v) < b.relPos.z < BackZ(v)
  {
    SideColumnsShape(v, SideCount(v), p);
  }

  /** The gate is the half-open interval [-1, 2). */
  lemma GateBounds()
    ensures GateStart() == -1 && GateEnd() == 2
    ensures forall x: real :: OutsideGate(x) <==> !(-1.0 <= x < 2.0)
  {
  }

  /** The brick list of a new instance: the grass plate first (baseWidth x baseDepth, y kept),
      one brick per element (lifted by a plate), then the fence (y kept); every brick placed for
      rotation 0 at the placement position. */
  lemma CreationOrderLayout(v: Variation, p: Vec3)
    ensures var co := CreationOrder(v, p);
      && |co| == 1 + |v.elements| + |FenceRows(v, v.baseWidth, p)| + 2 * SideCount(v)
      && co[0].width == v.baseWidth && co[0].depth == v.baseDepth && co[0].finalPos.y == co[0].relPos.y
      && (forall k :: 0 <= k < |v.elements| ==>
            co[1 + k] == ElementBrick(v.elements[k], p) && co[1 + k].finalPos.y == v.elements[k].ly + PLATE_HEIGHT)
      && AllPlaced(co, p, 0)
  {
    var co := CreationOrder(v, p);
    var es := ElementBricks(v.elements, p);
    SideColumnsLength(v, SideCount(v), p);
    forall k | 0 <= k < |v.elements|
      ensures co[1 + k] == ElementBrick(v.elements[k], p)
    {
      assert co[1 + k] == ([GrassBrick(v, p)] + es)[1 + k] == es[k];
    }
    CreationOrderPlaced(v, p);
  }

  /** Every brick of the creation order is placed for rotation 0 at the placement position. */
  lemma CreationOrderPlaced(v: Variation, p: Vec3)
    ensures AllPlaced(CreationOrder(v, p), p, 0)
  {
    var es := ElementBricks(v.elements, p);
    var rows := FenceRows(v, v.baseWidth, p);
    var sides := SideColumns(v, SideCount(v), p);
    FenceRowsShape(v, v.baseWidth, p);
    MembersPlaced(rows, p);
    SideColumnsShape(v, SideCount(v), p);
    MembersPlaced(sides, p);
    assert AllPlaced([GrassBrick(v, p)] + es, p, 0);
    PlacedConcat([GrassBrick(v, p)] + es, rows, p);
    PlacedConcat([GrassBrick(v, p)] + es + rows, sides, p);
  }

  lemma MembersPlaced(s: seq<Brick>, p: Vec3)
    requires forall b :: b in s ==> BrickPlaced(b, p, 0)
    ensures AllPlaced(s, p, 0)
  {
    forall i | 0 <= i < |s|
      ensures BrickPlaced(s[i], p, 0)
    {
      assert s[i] in s;
    }
  }

  lemma PlacedConcat(a: seq<Brick>, b: seq<Brick>, p: Vec3)
    requires AllPlaced(a, p, 0) && AllPlaced(b, p, 0)
    ensures AllPlaced(a + b, p, 0)
  {
    forall i | 0 <= i < |a + b|
      ensures BrickPlaced((a + b)[i], p, 0)
    {
      if i >= |a| {
        assert (a + b)[i] == b[i - |a|];
      }
    }
  }

  lemma {:induction false} SideColumnsLength(v: Variation, n: nat, p: Vec3)
    ensures |SideColumns(v, n, p)| == 2 * n
  {
    if n > 0 {
      SideColumnsLength(v, n - 1, p);
    }
  }

  /** A new instance satisfies InstanceOk: its bricks are placed for rotation 0 and sorted. */
  lemma NewInstanceIsOk(c: Catalog, templateId: TemplateId, variationIndex: nat, instanceId: InstanceId, p: Vec3)
    requires ValidRef(c, templateId, variationIndex)
    ensures InstanceOk(c, Instance(templateId, variationIndex, instanceId, p, 0,
      SortByBuildOrder(CreationOrder(VariationOf(c, templateId, variationIndex), p)), false, false, false))
  {
    var v := VariationOf(c, templateId, variationIndex);
    var co := CreationOrder(v, p);
    var sorted := SortByBuildOrder(co);
    CreationOrderPlaced(v, p);
    forall i | 0 <= i < |sorted|
      ensures BrickPlaced(sorted[i], p, 0)
    {
      assert sorted[i] in multiset(co);
      var j :| 0 <= j < |co| && co[j] == sorted[i];
    }
  }

  // ---------------------------------------------------------------------------
  // getRotatedBoundingBox

  /** dimensions.height bricks on top of the base plate. */
  function FootprintHeight(v: Variation): real {
    v.height as real * BRICK_HEIGHT + PLATE_HEIGHT
  }

  /** The four footprint corners (+-halfWidth, 0, +-halfDepth). */
  function Corners(v: Variation): seq<Vec3> {
    var hw := v.baseWidth as real * BRICK_UNIT_SIZE / 2.0;
    var hd := v.baseDepth as real * BRICK_UNIT_SIZE / 2.0;
    [Vec3(hw, 0.0, hd), Vec3(hw, 0.0, -hd), Vec3(-hw, 0.0, hd), Vec3(-hw, 0.0, -hd)]
  }

  /** Half the box's x extent: half the width at 0 and pi, half the depth at pi/2 and 3pi/2. */
  function HalfExtentX(v: Variation, k: Quarter): real {
    (if k % 2 == 0 then v.baseWidth else v.baseDepth) as real * BRICK_UNIT_SIZE / 2.0
  }

  function HalfExtentZ(v: Variation, k: Quarter): real {
    (if k % 2 == 0 then v.baseDepth else v.baseWidth) as real * BRICK_UNIT_SIZE / 2.0
  }

  /** The box of a footprint rotated by k quarter turns: centre +- the half-extents horizontally,
      [0, height] vertically, translated by the centre when a world box is asked for. */
  function RotatedBoundingBox(center: Vec3, v: Variation, k: Quarter, world: bool): (b: Box)
    ensures b.max.x - b.min.x == 2.0 * HalfExtentX(v, k) && b.max.z - b.min.z == 2.0 * HalfExtentZ(v, k)
    ensures b.max.y - b.min.y == FootprintHeight(v)
    ensures var c := if world then center else Vec3(0.0, 0.0, 0.0);
      b.min.x + b.max.x == 2.0 * c.x && b.min.z + b.max.z == 2.0 * c.z && b.min.y == c.y
  {
    var local := Box(Vec3(-HalfExtentX(v, k), 0.0, -HalfExtentZ(v, k)),
                     Vec3(HalfExtentX(v, k), FootprintHeight(v), HalfExtentZ(v, k)));
    if world then Translate(local, center) else local
  }

  /** The footprint corners turned by k quarter turns about the vertical axis. */
  function RotatedCorners(v: Variation, k: Quarter): seq<Vec3> {
    var cs := Corners(v);
    [RotateY(cs[0], k), RotateY(cs[1], k), RotateY(cs[2], k), RotateY(cs[3], k)]
  }

  /** x is the least (greatest when !least) x coordinate of pts, and one of them. */
  predicate ExtremeX(pts: seq<Vec3>, x: real, least: bool) {
    && (forall j :: 0 <= j < |pts| ==> if least then x <= pts[j].x else pts[j].x <= x)
    && (exists j :: 0 <= j < |pts| && pts[j].x == x)
  }

  predicate ExtremeZ(pts: seq<Vec3>, z: real, least: bool) {
    && (forall j :: 0 <= j < |pts| ==> if least then z <= pts[j].z else pts[j].z <= z)
    && (exists j :: 0 <= j < |pts| && pts[j].z == z)
  }

  /** The half-extents are the extremes of the rotated corners: the closed form is the
      smallest box around the rotated footprint. */
  lemma RotatedCornersHull(v: Variation, k: Quarter)
    ensures ExtremeX(RotatedCorners(v, k), -HalfExtentX(v, k), true)
    ensures ExtremeX(RotatedCorners(v, k), HalfExtentX(v, k), false)
    ensures ExtremeZ(RotatedCorners(v, k), -HalfExtentZ(v, k), true)
    ensures ExtremeZ(RotatedCorners(v, k), HalfExtentZ(v, k), false)
  {
    var rc := RotatedCorners(v, k);
    var cs := Corners(v);
    RotateYCases(cs[0], k);
    RotateYCases(cs[1], k);
    RotateYCases(cs[2], k);
    RotateYCases(cs[3], k);
    if k == 0 {
      assert rc[3].x == -HalfExtentX(v, k) && rc[0].x == HalfExtentX(v, k);
      assert rc[3].z == -HalfExtentZ(v, k) && rc[0].z == HalfExtentZ(v, k);
    } else if k == 1 {
      assert rc[3].x == -HalfExtentX(v, k) && rc[0].x == HalfExtentX(v, k);
      assert rc[0].z == -HalfExtentZ(v, k) && rc[3].z == HalfExtentZ(v, k);
    } else if k == 2 {
      assert rc[0].x == -HalfExtentX(v, k) && rc[3].x == HalfExtentX(v, k);
      assert rc[0].z == -HalfExtentZ(v, k) && rc[3].z == HalfExtentZ(v, k);
    } else {
      assert rc[0].x == -HalfExtentX(v, k) && rc[3].x == HalfExtentX(v, k);
      assert rc[3].z == -HalfExtentZ(v, k) && rc[0].z == HalfExtentZ(v, k);
    }
  }

  /** Two values that are both the least (or both the greatest) of the same points are equal. */
  lemma ExtremeUnique(pts: seq<Vec3>, x: real, y: real, z: real, w: real, least: bool)
    requires ExtremeX(pts, x, least) && ExtremeX(pts, y, least)
    requires ExtremeZ(pts, z, least) && ExtremeZ(pts, w, least)
    ensures x == y && z == w
  {
    var i :| 0 <= i < |pts| && pts[i].x == x;
    var j :| 0 <= j < |pts| && pts[j].x == y;
    var m :| 0 <= m < |pts| && pts[m].z == z;
    var n :| 0 <= n < |pts| && pts[n].z == w;
  }

  /** The forEach over the rotated corners, folding x and z into running minima and maxima. */
  method FoldExtents(pts: seq<Vec3>) returns (minX: real, maxX: real, minZ: real, maxZ: real)
    requires |pts| > 0
    ensures ExtremeX(pts, minX, true) && ExtremeX(pts, maxX, false)
    ensures ExtremeZ(pts, minZ, true) && ExtremeZ(pts, maxZ, false)
  {
    minX, minZ := pts[0].x, pts[0].z;
    maxX, maxZ := pts[0].x, pts[0].z;
    ghost var a, b, c, d := 0, 0, 0, 0;
    for i := 0 to |pts|
      invariant forall j :: 0 <= j < i ==> minX <= pts[j].x <= maxX && minZ <= pts[j].z <= maxZ
      invariant 0 <= a < |pts| && 0 <= b < |pts| && 0 <= c < |pts| && 0 <= d < |pts|
      invariant minX == pts[a].x && maxX == pts[b].x && minZ == pts[c].z && maxZ == pts[d].z
    {
      var corner := pts[i];
      if corner.x < minX { minX, a := corner.x, i; }
      if corner.z < minZ { minZ, c := corner.z, i; }
      if corner.x > maxX { maxX, b := corner.x, i; }
      if corner.z > maxZ { maxZ, d := corner.z, i; }
    }
  }

  /**
   * getRotatedBoundingBox: rotate the four corners, fold them into min/max, and
   * translate by the centre for a world box. The result is the closed form above.
   */
  method GetRotatedBoundingBox(center: Vec3, v: Variation, k: Quarter, world: bool) returns (box: Box)
    ensures box == RotatedBoundingBox(center, v, k, world)
  {
    var height := FootprintHeight(v);
    var rotated := RotatedCorners(v, k);
    var minX, maxX, minZ, maxZ := FoldExtents(rotated);
    var hx, hz := HalfExtentX(v, k), HalfExtentZ(v, k);
    assert minX == -hx && minZ == -hz && maxX == hx && maxZ == hz by {
      RotatedCornersHull(v, k);
      ExtremeUnique(rotated, minX, -hx, minZ, -hz, true);
      ExtremeUnique(rotated, maxX, hx, maxZ, hz, false);
    }
    box := Box(Vec3(minX, 0.0, minZ), Vec3(maxX, height, maxZ));
    assert box == RotatedBoundingBox(center, v, k, false);
    if world {
      box := Translate(box, center);
    }
  }
}
