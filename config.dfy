// The pixel editor's configuration constants. Colours, fonts and other
// rendering-only settings are not part of the model.

module Config {

  const PIXELS_PER_METER: real := 50.0
  const GRID_SIZE_PIXELS: real := 25.0
  const WALL_THICKNESS: real := 6.0
  const HandleSize: real := 8.0
  const SnapTolerance: real := 10.0
  const WallPlacementTolerance: real := WALL_THICKNESS * 1.5
  const DoorEndSnapTolerance: real := 15.0
  const MinDoorWindowLength: real := 10.0

  /**
   * The configuration defines no `minElementSize`, so the shape commit falls
   * back to its default of three pixels.
   */
  const MinElementSize: real := 3.0

  /** Tolerance for grabbing a resize handle: half a handle plus two pixels. */
  const HandleTolerance: real := HandleSize / 2.0 + 2.0
}
