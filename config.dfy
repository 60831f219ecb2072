/** The game-wide constants declared at the top of src/main.rs. */
module Config {
  /** Side of one maze cell in pixels (CELL_SIZE). */
  const CellSize: real := 16.0

  /** Lives the game starts with (INTIAL_LIVES). */
  const InitialLives: int := 2

  /** Score values of the two kinds of pickup. */
  const PowerPillScore: nat := 50
  const DotScore: nat := 10

  /** Collision radius of a pickup, in cells. */
  const PickupRange: real := 0.5
}
