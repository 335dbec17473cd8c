/**
 * The geometric constants of the brick editor (js/constants.js), in brick units.
 * ROTATION_INCREMENT is pi/2; the model counts rotations in quarter turns instead
 * of radians (see module Geometry), so it appears here as QUARTER_TURNS.
 */
module Constants {
  const BRICK_UNIT_SIZE: real := 1.0
  const BRICK_HEIGHT: real := BRICK_UNIT_SIZE * 0.8
  const STUD_HEIGHT: real := BRICK_HEIGHT * 0.25
  const STUD_RADIUS: real := BRICK_UNIT_SIZE * 0.3
  const PLATE_HEIGHT: real := BRICK_HEIGHT / 3.0
  const ROAD_HEIGHT: real := PLATE_HEIGHT * 0.5

  const LEGO_DARK_GREEN: int := 0x008742
  const LEGO_WHITE: int := 0xFFFFFF
  const LEGO_TRANSCLEARBLUE: int := 0xADCDEF

  /** A full turn is this many ROTATION_INCREMENT (pi/2) steps. */
  const QUARTER_TURNS: nat := 4

  const COLLISION_CHECK_BUFFER: real := 0.1

  /** The relations between the constants that the rest of the model relies on. */
  lemma ConstantRelations()
    ensures BRICK_HEIGHT == 0.8 * BRICK_UNIT_SIZE
    ensures 3.0 * PLATE_HEIGHT == BRICK_HEIGHT
    ensures 2.0 * ROAD_HEIGHT == PLATE_HEIGHT
    ensures 4.0 * STUD_HEIGHT == BRICK_HEIGHT
    ensures 0.0 < COLLISION_CHECK_BUFFER < BRICK_UNIT_SIZE / 2.0
    ensures 0.0 < PLATE_HEIGHT < BRICK_HEIGHT
  {
  }
}
