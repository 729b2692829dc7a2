/** Tuning constants of the penguin game: the ones main.js declares at its top
    and the literals its handlers use. Lengths are in scene pixels, speeds in
    pixels per second (negative is leftwards or upwards). */
module Config {
  /** Logical size of the scene; the screen is scaled from it. */
  const BaseWidth: real := 800.0
  const BaseHeight: real := 600.0

  /** Pipe sprites are drawn at three quarters of their texture size. */
  const PipeScale: real := 0.75
  const PipeTextureWidth: real := 360.0
  const PipeTextureHeight: real := 693.0
  /** Horizontal velocity of every pipe while the game runs. */
  const PipeSpeed: real := -220.0

  /** Gap between the two pipes of a row: starts at the base size and
      shrinks by one pixel per `GapShrinkInterval` points of score. */
  const BaseGapSize: int := 220
  const MinGapSize: int := 150
  const MaxGapSize: int := 220
  const GapShrinkInterval: int := 5
  /** Least distance the gap keeps from the top and from the bottom of the screen. */
  const GapMargin: real := 40.0
  /** Distance from the right edge of the screen to the left edge of a new pipe. */
  const SpawnPadding: real := 10.0

  /** Vertical velocity a flap gives the penguin. */
  const FlapVelocity: real := -340.0
  /** Where the scene places the penguin before the game starts. */
  const PenguinStartX: real := BaseWidth * 0.25
  const PenguinStartY: real := BaseHeight / 2.0
}
