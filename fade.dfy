/**
 * The frame smoothing shared by the particle layers and the ornaments: an
 * explosion value that follows the exploding flag at rate 3 and an opacity that
 * fades to 0.05 while a photo is focused and back to 1 otherwise, at rate 4.
 * Each frame both values are written into the uniforms of both materials.
 */
module Fade {
  import opened Smoothing

  const EXPLOSION_RATE: real := 3.0
  const OPACITY_RATE: real := 4.0
  const FOCUSED_OPACITY: real := 0.05

  /** The uniforms the frame callback writes: `uTime`, `uExplosion` and `uOpacity`. */
  datatype Uniforms = Uniforms(time: real, explosion: real, opacity: real)

  const INITIAL_UNIFORMS: Uniforms := Uniforms(0.0, 0.0, 1.0)

  function ExplosionTarget(isExploding: bool): real
  {
    if isExploding then 1.0 else 0.0
  }

  function OpacityTarget(isFocused: bool): real
  {
    if isFocused then FOCUSED_OPACITY else 1.0
  }

  function ExplosionStep(current: real, isExploding: bool, delta: real): real
  {
    Approach(current, ExplosionTarget(isExploding), EXPLOSION_RATE, delta)
  }

  function OpacityStep(opacity: real, isFocused: bool, delta: real): real
  {
    Approach(opacity, OpacityTarget(isFocused), OPACITY_RATE, delta)
  }

  /**
   * With a frame short enough that each step factor is at most 1, the explosion
   * value stays in [0, 1] and the opacity in [0.05, 1], and each moves toward its
   * target without passing it.
   */
  lemma FadeStepsBounded(explosion: real, opacity: real, isExploding: bool, isFocused: bool, delta: real)
    requires 0.0 <= delta && delta * OPACITY_RATE <= 1.0
    requires 0.0 <= explosion <= 1.0 && FOCUSED_OPACITY <= opacity <= 1.0
    ensures 0.0 <= ExplosionStep(explosion, isExploding, delta) <= 1.0
    ensures Between(ExplosionStep(explosion, isExploding, delta), explosion, ExplosionTarget(isExploding))
    ensures FOCUSED_OPACITY <= OpacityStep(opacity, isFocused, delta) <= 1.0
    ensures Between(OpacityStep(opacity, isFocused, delta), opacity, OpacityTarget(isFocused))
  {
    ApproachBounded(explosion, ExplosionTarget(isExploding), EXPLOSION_RATE, delta, 0.0, 1.0);
    ApproachBounded(opacity, OpacityTarget(isFocused), OPACITY_RATE, delta, FOCUSED_OPACITY, 1.0);
  }

  /**
   * The two smoothed values of a layer and the uniforms of its two materials
   * (the foliage and effect points, or the box and sphere instances).
   */
  class Layers {
    var currentExplosion: real
    var currentOpacity: real
    var first: Uniforms
    var second: Uniforms

    /** Both materials always show the current values of the two refs. */
    ghost predicate Valid()
      reads this
    {
      && first == second
      && first.explosion == currentExplosion
      && first.opacity == currentOpacity
    }

    constructor()
      ensures Valid()
      ensures currentExplosion == 0.0 && currentOpacity == 1.0
      ensures first == INITIAL_UNIFORMS && second == INITIAL_UNIFORMS
    {
      currentExplosion := 0.0;
      currentOpacity := 1.0;
      first := INITIAL_UNIFORMS;
      second := INITIAL_UNIFORMS;
    }

    /** The frame callback, given the clock's elapsed time. */
    method Frame(elapsed: real, isExploding: bool, isFocused: bool, delta: real)
      modifies this
      ensures currentExplosion == ExplosionStep(old(currentExplosion), isExploding, delta)
      ensures currentOpacity == OpacityStep(old(currentOpacity), isFocused, delta)
      ensures first == Uniforms(elapsed, currentExplosion, currentOpacity)
      ensures Valid()
    {
      var targetExplosion := if isExploding then 1.0 else 0.0;
      currentExplosion := Lerp(currentExplosion, targetExplosion, delta * 3.0);
      var targetOpacity := if isFocused then 0.05 else 1.0;
      currentOpacity := Lerp(currentOpacity, targetOpacity, delta * 4.0);
      first := first.(time := elapsed, explosion := currentExplosion, opacity := currentOpacity);
      second := second.(time := elapsed, explosion := currentExplosion, opacity := currentOpacity);
    }
  }
}
