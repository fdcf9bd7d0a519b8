/** Compile-time constants of the game and the integer helpers the C code relies on. */
module Config {

  const LEVEL_WIDTH: int := 1980
  const LEVEL_HEIGHT: int := 990
  const SCREEN_WIDTH: int := 600
  const SCREEN_HEIGHT: int := 600

  const SHEET_STANDARD_SPRITE_SIZE: int := 194
  /** Number of tile slots: (LEVEL_WIDTH / 90) * (LEVEL_HEIGHT / 90) = 22 * 11. */
  const TILE_MAP_SIZE: int := (LEVEL_WIDTH / 90) * (LEVEL_HEIGHT / 90)

  const PAC_SPEED: int := 10
  const TEXT_BOX_BUFFER_SIZE: int := 20
  const TEXT_BOX_MAX_LINE_SIZE: int := 10
  const AUDIO_DEVICE_NAME_SIZE: int := 30
  const MAX_RECORDING_SECONDS: int := 3

  /** An unsigned 8-bit value (a file byte, an audio sample byte). */
  newtype byte = b: int | 0 <= b < 256

  function Min(a: int, b: int): int { if a < b then a else b }

  /**
   * C's integer division, which truncates toward zero (Dafny's `/` is
   * Euclidean, which differs when the dividend is negative).
   */
  function CDiv(a: int, b: int): int
    requires b != 0
  {
    if a >= 0 && b > 0 then a / b
    else if b > 0 then -((-a) / b)
    else if a >= 0 then -(a / (-b))
    else (-a) / (-b)
  }
}
