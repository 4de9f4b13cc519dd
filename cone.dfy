/** The tree's cone: heights from a random draw, and the cone's radius at a height. */
module Cone {
  import opened Constants

  /** A height drawn uniformly over the whole tree from u in [0, 1). */
  function ConeHeight(u: real): real
  {
    u * TREE_HEIGHT - (TREE_HEIGHT / 2.0)
  }

  /** How far up the tree a height is, from 0 at the base to 1 at the tip. */
  function Progress(y: real): real
  {
    (y + (TREE_HEIGHT / 2.0)) / TREE_HEIGHT
  }

  /** The radius of the cone's surface at a height. */
  function SurfaceRadius(y: real): real
  {
    (1.0 - Progress(y)) * TREE_RADIUS
  }

  /**
   * A drawn height lies in [-15, 15) and its progress is the draw itself, so the
   * cone's radius there lies in (0, 12], shrinking as the height grows.
   */
  lemma ConeRanges(u: real)
    requires 0.0 <= u < 1.0
    ensures -15.0 <= ConeHeight(u) < 15.0
    ensures Progress(ConeHeight(u)) == u
    ensures 0.0 < SurfaceRadius(ConeHeight(u)) <= TREE_RADIUS
  {
  }

  lemma SurfaceRadiusShrinks(y1: real, y2: real)
    requires y1 < y2
    ensures SurfaceRadius(y2) < SurfaceRadius(y1)
  {
  }
}
