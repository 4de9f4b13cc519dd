/** The scene constants of constants.ts. */
module Constants {
  /** An RGB triple of the `COLORS` palette. */
  datatype Rgb = Rgb(r: real, g: real, b: real)

  const TREE_HEIGHT: real := 30.0
  const TREE_RADIUS: real := 12.0
  const PARTICLE_COUNT_TREE: nat := 18000
  const PARTICLE_COUNT_DUST: nat := 3000
  const PARTICLE_COUNT_RIBBON: nat := 2000
  const ORNAMENT_COUNT_BOX: nat := 400
  const ORNAMENT_COUNT_SPHERE: nat := 600

  const GOLD := Rgb(1.0, 0.84, 0.0)
  const RED := Rgb(0.8, 0.0, 0.0)
  const EMERALD := Rgb(0.01, 0.25, 0.05)
  const DEEP_GREEN := Rgb(0.0, 0.12, 0.03)
  const LIME_GREEN := Rgb(0.05, 0.3, 0.05)
  const WHITE := Rgb(1.0, 1.0, 1.0)
  const BLUE := Rgb(0.1, 0.2, 0.8)
}
