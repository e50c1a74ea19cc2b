/** Shared sizes and offsets of the game world, in pixels (internal/config/constants.go). */
module Config {
  const EnemySize: real := 25.0
  const TowerSize: real := 25.0
  const PathWidth: real := 50.0
  const ProjectileSize: real := 5.0

  /** Height of the band at the top of the screen that the HUD occupies. */
  const HUDHeight: real := 120.0
  /** Vertical shift of the packaged map, so that it starts below the HUD. */
  const MapOffsetY: real := 120.0
}
