/**
 * The star on top of the tree: a five-pointed outline extruded into a mesh,
 * which rises and tilts while the tree explodes and fades while a photo is
 * focused.
 */
module TopStar {
  import opened Smoothing
  import opened Geometry
  import opened Constants
  import Fade

  /** The star's height over the scene origin when the tree is assembled. */
  const REST_HEIGHT: real := TREE_HEIGHT / 2.0 + 1.5

  /** Explosion at or below which the star snaps back to its rest pose. */
  const LIFT_THRESHOLD: real := 0.01

  /** The star follows the exploding flag at rate 2, slower than the particle layers. */
  const EXPLOSION_RATE: real := 2.0

  /** The star mesh's height and its Euler rotation about x and z. */
  datatype StarPose = StarPose(y: real, rotX: real, rotZ: real)

  /** The pose the star is created in. */
  const INITIAL_POSE: StarPose := StarPose(REST_HEIGHT, 0.0, 0.0)

  function ExplosionStep(current: real, isExploding: bool, delta: real): real
  {
    Approach(current, if isExploding then 1.0 else 0.0, EXPLOSION_RATE, delta)
  }

  /** Lifted and tilted above the threshold (rotation about z kept); at rest, upright, below it. */
  function NextPose(pose: StarPose, explosion: real): StarPose
  {
    if explosion > LIFT_THRESHOLD then pose.(y := REST_HEIGHT + explosion * 10.0, rotX := explosion * 0.5)
    else StarPose(REST_HEIGHT, 0.0, 0.0)
  }

  /** The explosion value moves toward its target and stays in [0, 1] for a frame factor in [0, 1]. */
  lemma ExplosionStepBounded(current: real, isExploding: bool, delta: real)
    requires 0.0 <= delta * EXPLOSION_RATE <= 1.0
    requires 0.0 <= current <= 1.0
    ensures 0.0 <= ExplosionStep(current, isExploding, delta) <= 1.0
    ensures Between(ExplosionStep(current, isExploding, delta), current, if isExploding then 1.0 else 0.0)
  {
    ApproachBounded(current, if isExploding then 1.0 else 0.0, EXPLOSION_RATE, delta, 0.0, 1.0);
  }

  /**
   * The rest height is 16.5. For an explosion value in [0, 1] the star is between 16.5 and 26.5 high
   * and tilted by at most 0.5; its height differs from the unthresholded
   * 16.5 + 10 * explosion by at most 0.1, and a pose with no z rotation keeps none.
   */
  lemma PoseRules(pose: StarPose, explosion: real)
    requires 0.0 <= explosion <= 1.0
    ensures REST_HEIGHT == 16.5
    ensures var p := NextPose(pose, explosion);
      && REST_HEIGHT <= p.y <= REST_HEIGHT + 10.0
      && 0.0 <= p.rotX <= 0.5
      && -0.1 <= p.y - (REST_HEIGHT + 10.0 * explosion) <= 0.0
      && (explosion > LIFT_THRESHOLD ==> p.y - REST_HEIGHT == 10.0 * explosion && p.rotX == 0.5 * explosion)
      && (explosion <= LIFT_THRESHOLD ==> p == INITIAL_POSE)
      && (pose.rotZ == 0.0 ==> p.rotZ == 0.0)
  {
  }

  /** One command of a 2-D path. */
  datatype PathCommand = MoveTo(x: real, y: real) | LineTo(x: real, y: real) | ClosePath

  const STAR_POINTS: nat := 5
  const OUTER_RADIUS: real := 1.2
  const INNER_RADIUS: real := 0.5

  /** Tips at even vertices, notches at odd ones. */
  function VertexRadius(i: nat): real
  {
    if i % 2 == 0 then OUTER_RADIUS else INNER_RADIUS
  }

  /** Vertex i of the 2 * STAR_POINTS vertices is at angle i / 10 of a full turn. */
  function VertexAngle(i: nat): real
  {
    (i as real / (STAR_POINTS * 2) as real) * PI * 2.0
  }

  function VertexX(m: MathLib, i: nat): real
  {
    m.cos(VertexAngle(i)) * VertexRadius(i)
  }

  function VertexY(m: MathLib, i: nat): real
  {
    m.sin(VertexAngle(i)) * VertexRadius(i)
  }

  /** The path for vertex i: the first one starts the path, the rest extend it. */
  function VertexCommand(m: MathLib, i: nat): PathCommand
  {
    if i == 0 then MoveTo(VertexX(m, i), VertexY(m, i)) else LineTo(VertexX(m, i), VertexY(m, i))
  }

  /** The commands for the first n vertices. */
  function Vertices(m: MathLib, n: nat): (r: seq<PathCommand>)
    ensures |r| == n
    ensures forall i :: 0 <= i < n ==> r[i] == VertexCommand(m, i)
  {
    if n == 0 then [] else Vertices(m, n - 1) + [VertexCommand(m, n - 1)]
  }

  /** The whole closed outline. */
  function StarOutline(m: MathLib): seq<PathCommand>
  {
    Vertices(m, STAR_POINTS * 2) + [ClosePath]
  }

  /** The squared distance of a command's point from the star's centre. */
  function PointSq(c: PathCommand): real
    requires !c.ClosePath?
  {
    c.x * c.x + c.y * c.y
  }

  lemma VertexOnCircle(m: MathLib, i: nat)
    requires ValidMath(m)
    ensures VertexX(m, i) * VertexX(m, i) + VertexY(m, i) * VertexY(m, i) == VertexRadius(i) * VertexRadius(i)
  {
    var r, a := VertexRadius(i), VertexAngle(i);
    PolarRadius(m, r, a, 0.0);
    assert VertexX(m, i) == r * m.cos(a) && VertexY(m, i) == r * m.sin(a);
    assert HorizontalSq(Vec3(VertexX(m, i), 0.0, VertexY(m, i))) == r * r;
  }

  /**
   * The outline is one moveTo, nine lineTo and a closing command; its vertices
   * lie alternately on the outer circle (radius 1.2) and the inner one
   * (radius 0.5), a tenth of a turn apart.
   */
  lemma OutlineShape(m: MathLib)
    requires ValidMath(m)
    ensures |StarOutline(m)| == 11
    ensures StarOutline(m)[0].MoveTo? && StarOutline(m)[10].ClosePath?
    ensures forall i :: 1 <= i < 10 ==> StarOutline(m)[i].LineTo?
    ensures forall i :: 0 <= i < 10 ==>
      PointSq(StarOutline(m)[i]) == (if i % 2 == 0 then 1.44 else 0.25)
    ensures forall i :: 0 <= i < 10 ==> VertexAngle(i + 1) - VertexAngle(i) == PI / 5.0
  {
    forall i | 0 <= i < 10
      ensures PointSq(StarOutline(m)[i]) == (if i % 2 == 0 then 1.44 else 0.25)
    {
      VertexOnCircle(m, i);
      assert StarOutline(m)[i] == VertexCommand(m, i);
    }
  }

  /** The star mesh and its material's opacity. */
  class Star {
    var currentExplosion: real
    var pose: StarPose
    var opacity: real
    var transparent: bool

    /** The star is never turned about z: the rest pose has no z rotation and the lifted pose keeps it. */
    ghost predicate Valid()
      reads this
    {
      pose.rotZ == 0.0
    }

    constructor()
      ensures Valid()
      ensures currentExplosion == 0.0 && pose == INITIAL_POSE && opacity == 1.0 && !transparent
    {
      currentExplosion := 0.0;
      pose := INITIAL_POSE;
      opacity := 1.0;
      transparent := false;
    }

    /** The outline, built vertex by vertex and then closed. */
    static method BuildStarShape(m: MathLib) returns (shape: seq<PathCommand>)
      ensures shape == StarOutline(m)
    {
      shape := [];
      var i := 0;
      while i < STAR_POINTS * 2
        invariant 0 <= i <= STAR_POINTS * 2
        invariant shape == Vertices(m, i)
      {
        var r := if i % 2 == 0 then OUTER_RADIUS else INNER_RADIUS;
        var a := (i as real / (STAR_POINTS * 2) as real) * PI * 2.0;
        var x := m.cos(a) * r;
        var y := m.sin(a) * r;
        if i == 0 {
          shape := shape + [MoveTo(x, y)];
        } else {
          shape := shape + [LineTo(x, y)];
        }
        i := i + 1;
      }
      shape := shape + [ClosePath];
    }

    /** The frame callback. */
    method Frame(isExploding: bool, isFocused: bool, delta: real)
      requires Valid()
      modifies this
      ensures Valid()
      ensures currentExplosion == ExplosionStep(old(currentExplosion), isExploding, delta)
      ensures pose == NextPose(old(pose), currentExplosion)
      ensures opacity == Fade.OpacityStep(old(opacity), isFocused, delta)
      ensures transparent
    {
      var target := if isExploding then 1.0 else 0.0;
      currentExplosion := Lerp(currentExplosion, target, delta * 2.0);
      var explosion := currentExplosion;
      var targetY := (TREE_HEIGHT / 2.0) + 1.5;
      if explosion > 0.01 {
        pose := pose.(y := targetY + (explosion * 10.0));
        pose := pose.(rotX := explosion * 0.5);
      } else {
        pose := pose.(y := targetY);
        pose := pose.(rotX := 0.0);
        pose := pose.(rotZ := 0.0);
      }
      var targetOp := if isFocused then 0.05 else 1.0;
      opacity := Lerp(opacity, targetOp, delta * 4.0);
      transparent := true;
    }
  }
}
