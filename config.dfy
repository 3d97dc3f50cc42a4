/** The game's fixed configuration (the static fields of class Value). */
module Config {
  /** Edge of one map tile, in pixels. */
  const TileSize: int := 48
  /** Milliseconds each water frame stays on screen. */
  const WaterFrameDurationMs: int := 800

  /** Pixels moved by one key event when walking and when running. */
  const WalkSpeed: int := 2
  const RunSpeed: int := 8

  /** Animation periods, in ticks per frame (higher is slower). */
  const IdleAnimationSpeed: int := 20
  const WalkingAnimationSpeed: int := 10
  const RunningAnimationSpeed: int := 8

  /** Number of static tile sheets (land, grass). */
  const StaticSheetCount: int := 2
  /** Number of frames in the water animation. */
  const WaterFrames: int := 4
  /** Number of fence sprites selectable by autotiling. */
  const FenceSpriteCount: int := 16

  /** Tile codes drawn with the animated water sprite. */
  const AnimatedTiles: seq<int> := [12]
  /** Tile code written by the "place water" action. */
  const WaterId: int := 12

  /** Edge of the player's sprite box, and of the fence tile box used by the collision scan. */
  const PlayerSize: int := 48
  const TileHitboxSize: int := 32
}
