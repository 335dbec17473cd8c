/**
 * Grid snapping and the stud layout of a single brick (js/legoUtils.js).
 */
module LegoUtils {
  import opened Constants
  import opened Geometry

  /** Math.round: the nearest integer, halves rounded up. */
  function Round(v: real): (r: int)
    ensures r as real - 0.5 <= v < r as real + 0.5
  {
    (v + 0.5).Floor
  }

  /** c is an integer multiple of BRICK_UNIT_SIZE. */
  predicate OnGrid(c: real) {
    (c / BRICK_UNIT_SIZE).Floor as real * BRICK_UNIT_SIZE == c
  }

  /** snapToGrid: the centre of the nearest grid unit, on the ground. */
  function SnapToGrid(p: Vec3): (r: Vec3)
    ensures r.y == 0.0
    ensures OnGrid(r.x) && OnGrid(r.z)
    ensures r.x - BRICK_UNIT_SIZE / 2.0 <= p.x < r.x + BRICK_UNIT_SIZE / 2.0
    ensures r.z - BRICK_UNIT_SIZE / 2.0 <= p.z < r.z + BRICK_UNIT_SIZE / 2.0
  {
    var snappedX := Round(p.x / BRICK_UNIT_SIZE) as real * BRICK_UNIT_SIZE;
    var snappedZ := Round(p.z / BRICK_UNIT_SIZE) as real * BRICK_UNIT_SIZE;
    Vec3(snappedX, 0.0, snappedZ)
  }

  /** Snapping a snapped point changes nothing. */
  lemma SnapIsIdempotent(p: Vec3)
    ensures SnapToGrid(SnapToGrid(p)) == SnapToGrid(p)
  {
    var s := SnapToGrid(p);
    assert Round(s.x) == s.x.Floor;
    assert Round(s.z) == s.z.Floor;
  }

  /** Halfway values round upward, as Math.round does, on both sides of zero. */
  lemma HalvesRoundUp()
    ensures SnapToGrid(Vec3(2.5, 7.0, -2.5)) == Vec3(3.0, 0.0, -2.0)
  {
    assert Round(2.5) == 3;
    assert Round(-2.5) == -2;
  }

  /** Studs are added only to a brick at least a plate high that is not transparent. */
  predicate HasStuds(height: real, color: int) {
    height >= PLATE_HEIGHT && color != LEGO_TRANSCLEARBLUE
  }

  /** The position of stud (i, j) of a width x depth brick, relative to the brick's origin. */
  function StudAt(width: nat, depth: nat, height: real, i: int, j: int): Vec3 {
    var startX := -((width as real - 1.0) / 2.0) * BRICK_UNIT_SIZE;
    var startZ := -((depth as real - 1.0) / 2.0) * BRICK_UNIT_SIZE;
    var studY := height / 2.0 + STUD_HEIGHT / 2.0;
    Vec3(startX + i as real * BRICK_UNIT_SIZE, studY, startZ + j as real * BRICK_UNIT_SIZE)
  }

  /** The studs j = 0 .. n-1 of column i, in the order the inner loop adds them. */
  function StudColumn(width: nat, depth: nat, height: real, i: int, n: nat): seq<Vec3> {
    if n == 0 then [] else StudColumn(width, depth, height, i, n - 1) + [StudAt(width, depth, height, i, n - 1)]
  }

  /** The studs of columns 0 .. n-1, in the order the two loops add them. */
  function StudGrid(width: nat, depth: nat, height: real, n: nat): seq<Vec3> {
    if n == 0 then [] else StudGrid(width, depth, height, n - 1) + StudColumn(width, depth, height, n - 1, depth)
  }

  function StudLayout(width: nat, depth: nat, height: real, color: int): seq<Vec3> {
    if HasStuds(height, color) then StudGrid(width, depth, height, width) else []
  }

  /**
   * The stud loops of createLegoBrick: the positions of the studs added to the
   * brick's group. The mesh, material and userData are not modelled.
   */
  method CreateLegoBrick(width: nat, depth: nat, height: real, color: int) returns (studs: seq<Vec3>)
    ensures studs == StudLayout(width, depth, height, color)
  {
    studs := [];
    if height >= PLATE_HEIGHT && color != LEGO_TRANSCLEARBLUE {
      var startX := -((width as real - 1.0) / 2.0) * BRICK_UNIT_SIZE;
      var startZ := -((depth as real - 1.0) / 2.0) * BRICK_UNIT_SIZE;
      var studY := (height / 2.0) + (STUD_HEIGHT / 2.0);
      for i := 0 to width
        invariant studs == StudGrid(width, depth, height, i)
      {
        for j := 0 to depth
          invariant studs == StudGrid(width, depth, height, i) + StudColumn(width, depth, height, i, j)
        {
          studs := studs + [Vec3(startX + i as real * BRICK_UNIT_SIZE, studY, startZ + j as real * BRICK_UNIT_SIZE)];
        }
      }
    }
  }

  lemma {:induction false} StudColumnShape(width: nat, depth: nat, height: real, i: int, n: nat)
    ensures |StudColumn(width, depth, height, i, n)| == n
    ensures forall j :: 0 <= j < n ==> StudColumn(width, depth, height, i, n)[j] == StudAt(width, depth, height, i, j)
  {
    if n > 0 {
      StudColumnShape(width, depth, height, i, n - 1);
    }
  }

  /** Index arithmetic of the row-major stud order. */
  lemma RowMajorIndex(i: nat, j: nat, n: nat, depth: nat)
    requires i < n && j < depth
    ensures i * depth + j < n * depth
    ensures n * depth == (n - 1) * depth + depth
  {
    assert (i + 1) * depth == i * depth + depth;
    assert (i + 1) * depth <= n * depth;
    assert n * depth == (n - 1) * depth + depth;
  }

  lemma {:induction false} StudGridLength(width: nat, depth: nat, height: real, n: nat)
    ensures |StudGrid(width, depth, height, n)| == n * depth
  {
    if n > 0 {
      StudGridLength(width, depth, height, n - 1);
      StudColumnShape(width, depth, height, n - 1, depth);
      assert (n - 1) * depth + depth == n * depth;
    }
  }

  lemma {:induction false} StudGridAt(width: nat, depth: nat, height: real, n: nat, i: nat, j: nat)
    requires i < n && j < depth
    ensures i * depth + j < |StudGrid(width, depth, height, n)|
    ensures StudGrid(width, depth, height, n)[i * depth + j] == StudAt(width, depth, height, i, j)
  {
    StudGridLength(width, depth, height, n);
    StudGridLength(width, depth, height, n - 1);
    StudColumnShape(width, depth, height, n - 1, depth);
    RowMajorIndex(i, j, n, depth);
    var prev := StudGrid(width, depth, height, n - 1);
    var col := StudColumn(width, depth, height, n - 1, depth);
    assert StudGrid(width, depth, height, n) == prev + col;
    if i < n - 1 {
      RowMajorIndex(i, j, n - 1, depth);
      StudGridAt(width, depth, height, n - 1, i, j);
    } else {
      assert i * depth + j == |prev| + j;
    }
  }

  /** A brick that gets studs has width * depth of them; a brick that gets none has an empty layout. */
  lemma StudCount(width: nat, depth: nat, height: real, color: int)
    ensures |StudLayout(width, depth, height, color)| == if HasStuds(height, color) then width * depth else 0
  {
    if HasStuds(height, color) {
      StudGridLength(width, depth, height, width);
    }
  }

  /** The studs come in row-major order: stud (i, j) of a brick that gets studs is at index i * depth + j. */
  lemma StudOrder(width: nat, depth: nat, height: real, color: int, i: nat, j: nat)
    requires HasStuds(height, color) && i < width && j < depth
    ensures i * depth + j < |StudLayout(width, depth, height, color)|
    ensures StudLayout(width, depth, height, color)[i * depth + j] == StudAt(width, depth, height, i, j)
  {
    StudGridAt(width, depth, height, width, i, j);
  }

  /** The stud grid is centred on the brick origin: stud (i, j) mirrors stud (width-1-i, depth-1-j),
      and every stud sits on top of the brick. */
  lemma StudGridIsCentred(width: nat, depth: nat, height: real, i: int, j: int)
    ensures StudAt(width, depth, height, i, j).x + StudAt(width, depth, height, width - 1 - i, depth - 1 - j).x == 0.0
    ensures StudAt(width, depth, height, i, j).z + StudAt(width, depth, height, width - 1 - i, depth - 1 - j).z == 0.0
    ensures StudAt(width, depth, height, i, j).y == height / 2.0 + STUD_HEIGHT / 2.0
  {
  }

  // ---------------------------------------------------------------------------
  // Roads

  /** A road mesh: a width x ROAD_HEIGHT x length box, centred at center, turned by k quarter turns. */
  datatype RoadSegment = RoadSegment(width: real, length: real, center: Vec3, rotation: Quarter)

  /** createRoadSegment: the mesh sits on the ground at position's x and z. */
  function CreateRoadSegment(width: real, length: real, position: Vec3, k: Quarter): (r: RoadSegment)
    ensures r.center.x == position.x && r.center.z == position.z
    ensures r.center.y - ROAD_HEIGHT / 2.0 == 0.0
  {
    RoadSegment(width, length, Vec3(position.x, ROAD_HEIGHT / 2.0, position.z), k)
  }

  /** Box3.setFromObject on a road mesh: its axis-aligned world box (width and length swapped at odd k). */
  function RoadBox(r: RoadSegment): (b: Box)
    ensures b.min.x + b.max.x == 2.0 * r.center.x && b.min.y + b.max.y == 2.0 * r.center.y
    ensures b.min.z + b.max.z == 2.0 * r.center.z
    ensures b.max.x - b.min.x == (if r.rotation % 2 == 0 then r.width else r.length)
    ensures b.max.z - b.min.z == (if r.rotation % 2 == 0 then r.length else r.width)
    ensures b.max.y - b.min.y == ROAD_HEIGHT
  {
    var hx := (if r.rotation % 2 == 0 then r.width else r.length) / 2.0;
    var hz := (if r.rotation % 2 == 0 then r.length else r.width) / 2.0;
    Box(Vec3(r.center.x - hx, r.center.y - ROAD_HEIGHT / 2.0, r.center.z - hz),
        Vec3(r.center.x + hx, r.center.y + ROAD_HEIGHT / 2.0, r.center.z + hz))
  }

  /** A road made by CreateRoadSegment occupies [0, ROAD_HEIGHT] vertically and its footprint
      around the position horizontally. */
  lemma RoadBoxOfCreatedRoad(width: real, length: real, position: Vec3, k: Quarter)
    requires width >= 0.0 && length >= 0.0
    ensures var b := RoadBox(CreateRoadSegment(width, length, position, k));
      && b.min.y == 0.0 && b.max.y == ROAD_HEIGHT
      && Contains(b, Vec3(position.x, 0.0, position.z))
      && b.max.x - b.min.x == (if k % 2 == 0 then width else length)
      && b.max.z - b.min.z == (if k % 2 == 0 then length else width)
  {
  }
}
