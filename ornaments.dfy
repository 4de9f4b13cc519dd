/**
 * The ornaments: 400 gift boxes and 600 spheres, instanced meshes placed on the
 * cone's surface. Each instance gets a transform (position, random Euler
 * rotation, uniform scale), a colour from its kind's table and a scatter
 * position out along the ray from the centre through it.
 */
module Ornaments {
  import opened Smoothing
  import opened Geometry
  import opened Constants
  import opened Cone
  import opened Buffers

  datatype OrnamentKind = Box | Sphere

  /** The `Math.random()` draws for one instance, in the order they are made. */
  datatype OrnamentDraw = OrnamentDraw(
    height: real, theta: real, rotX: real, rotY: real, rotZ: real,
    scale: real, color: real, distance: real, lift: real)

  predicate Unit(u: real)
  {
    0.0 <= u < 1.0
  }

  predicate ValidOrnamentDraw(d: OrnamentDraw)
  {
    Unit(d.height) && Unit(d.theta) && Unit(d.rotX) && Unit(d.rotY) && Unit(d.rotZ)
    && Unit(d.scale) && Unit(d.color) && Unit(d.distance) && Unit(d.lift)
  }

  /** How far outside the cone's surface an instance sits: boxes a little out, spheres on it. */
  function SurfaceOffset(kind: OrnamentKind): real
  {
    if kind == Box then 0.2 else 0.0
  }

  /** `getConePos`: a random height and angle, at the cone's radius there plus the offset. */
  function ConePos(m: MathLib, heightDraw: real, thetaDraw: real, offset: real): Vec3
  {
    var y := ConeHeight(heightDraw);
    var r := SurfaceRadius(y) + offset;
    var theta := thetaDraw * PI * 2.0;
    Vec3(r * m.cos(theta), y, r * m.sin(theta))
  }

  function InstanceScale(kind: OrnamentKind, u: real): real
  {
    if kind == Box then 0.5 + u * 0.5 else 0.3 + u * 0.4
  }

  function OrnamentColor(kind: OrnamentKind, rand: real): Rgb
  {
    match kind
    case Box => if rand < 0.5 then RED else if rand < 0.8 then GOLD else BLUE
    case Sphere => if rand < 0.4 then GOLD else if rand < 0.7 then RED else if rand < 0.9 then WHITE else EMERALD
  }

  /** The spread of scatter distances beyond the minimum of 30. */
  function DistanceMultiplier(kind: OrnamentKind): real
  {
    if kind == Box then 30.0 else 45.0
  }

  function ScatterDistance(kind: OrnamentKind, u: real): real
  {
    30.0 + u * DistanceMultiplier(kind)
  }

  function ScatterLift(u: real): real
  {
    (u - 0.5) * 40.0
  }

  /** What `updateMatrix` composes: a position, an Euler rotation and a uniform scale. */
  datatype InstanceTransform = InstanceTransform(position: Vec3, rotation: Vec3, scale: real)

  /** The transform an instance slot holds before any is installed. */
  const IDENTITY: InstanceTransform := InstanceTransform(Origin, Origin, 1.0)

  function Position(m: MathLib, kind: OrnamentKind, d: OrnamentDraw): Vec3
  {
    ConePos(m, d.height, d.theta, SurfaceOffset(kind))
  }

  function Transform(m: MathLib, kind: OrnamentKind, d: OrnamentDraw): InstanceTransform
  {
    InstanceTransform(
      Position(m, kind, d),
      Vec3(d.rotX * PI, d.rotY * PI, d.rotZ * PI),
      InstanceScale(kind, d.scale))
  }

  /** The scatter position: out along the unit direction of the position, then lifted. */
  function Scatter(m: MathLib, kind: OrnamentKind, d: OrnamentDraw): Vec3
  {
    var sc := Scale(Normalize(m, Position(m, kind, d)), ScatterDistance(kind, d.distance));
    sc.(y := sc.y + ScatterLift(d.lift))
  }

  function ColorVec(c: Rgb): Vec3
  {
    Vec3(c.r, c.g, c.b)
  }

  /**
   * An instance lies at a height in [-15, 15) at squared distance r squared
   * from the axis, where r is the cone's radius there plus the kind's offset,
   * and that radius is positive.
   */
  lemma PositionGeometry(m: MathLib, kind: OrnamentKind, d: OrnamentDraw)
    requires ValidMath(m) && ValidOrnamentDraw(d)
    ensures var p := Position(m, kind, d);
      && -15.0 <= p.y < 15.0
      && HorizontalSq(p) == (SurfaceRadius(p.y) + SurfaceOffset(kind)) * (SurfaceRadius(p.y) + SurfaceOffset(kind))
      && SurfaceRadius(p.y) + SurfaceOffset(kind) > 0.0
  {
    var y := ConeHeight(d.height);
    ConeRanges(d.height);
    PolarRadius(m, SurfaceRadius(y) + SurfaceOffset(kind), d.theta * PI * 2.0, y);
  }

  /** The scale is the same on all three axes: boxes in [0.5, 1), spheres in [0.3, 0.7). */
  lemma ScaleRanges(m: MathLib, kind: OrnamentKind, d: OrnamentDraw)
    requires ValidOrnamentDraw(d)
    ensures kind == Box ==> 0.5 <= Transform(m, kind, d).scale < 1.0
    ensures kind == Sphere ==> 0.3 <= Transform(m, kind, d).scale < 0.7
  {
  }

  /** The two colour tables, each as a partition of [0, 1). */
  lemma ColorTables(rand: real)
    ensures OrnamentColor(Box, rand) == RED <==> rand < 0.5
    ensures OrnamentColor(Box, rand) == GOLD <==> 0.5 <= rand < 0.8
    ensures OrnamentColor(Box, rand) == BLUE <==> 0.8 <= rand
    ensures OrnamentColor(Sphere, rand) == GOLD <==> rand < 0.4
    ensures OrnamentColor(Sphere, rand) == RED <==> 0.4 <= rand < 0.7
    ensures OrnamentColor(Sphere, rand) == WHITE <==> 0.7 <= rand < 0.9
    ensures OrnamentColor(Sphere, rand) == EMERALD <==> 0.9 <= rand
  {
  }

  /**
   * Before its lift the scatter position is the unit direction of the instance's
   * position times a distance in [30, 60) for boxes or [30, 75) for spheres; the
   * lift lies in [-20, 20).
   */
  lemma ScatterGeometry(m: MathLib, kind: OrnamentKind, d: OrnamentDraw)
    requires ValidMath(m) && ValidOrnamentDraw(d)
    ensures var p := Position(m, kind, d);
      var s := Scatter(m, kind, d);
      && Vec3(s.x, s.y - ScatterLift(d.lift), s.z) == Scale(Normalize(m, p), ScatterDistance(kind, d.distance))
      && NormSq(Normalize(m, p)) == 1.0
      && 30.0 <= ScatterDistance(kind, d.distance) < 30.0 + DistanceMultiplier(kind)
      && -20.0 <= ScatterLift(d.lift) < 20.0
  {
    var p := Position(m, kind, d);
    PositionGeometry(m, kind, d);
    var r := SurfaceRadius(p.y) + SurfaceOffset(kind);
    PositiveProduct(r, r);
    SquareNonNegative(p.y);
    assert NormSq(p) == HorizontalSq(p) + p.y * p.y;
    NormalizeUnit(m, p);
  }

  /** The buffers and matrix list `generateData` returns for one kind. */
  class OrnamentData {
    const count: nat
    const colors: array<real>
    const scatterPos: array<real>
    var matrices: seq<InstanceTransform>

    ghost predicate Valid()
      reads this
    {
      colors.Length == 3 * count && scatterPos.Length == 3 * count && colors != scatterPos
    }

    constructor(count: nat)
      ensures Valid() && this.count == count && matrices == []
      ensures fresh(colors) && fresh(scatterPos)
      ensures forall k :: 0 <= k < 3 * count ==> colors[k] == 0.0 && scatterPos[k] == 0.0
    {
      this.count := count;
      colors := new real[3 * count](_ => 0.0);
      scatterPos := new real[3 * count](_ => 0.0);
      matrices := [];
    }

    /** Writes the colour and scatter position of instance `slot`. */
    method PutInstance(slot: nat, c: Rgb, sc: Vec3)
      requires Valid() && slot < count
      modifies colors, scatterPos
      ensures colors[..] == WriteTriple(old(colors[..]), slot, c.r, c.g, c.b)
      ensures scatterPos[..] == WriteTriple(old(scatterPos[..]), slot, sc.x, sc.y, sc.z)
    {
      StoreTriple(colors, slot, c.r, c.g, c.b);
      StoreTriple(scatterPos, slot, sc.x, sc.y, sc.z);
    }
  }

  /** The loop body's values for one instance: its transform, its colour and its scatter position. */
  method PlaceInstance(m: MathLib, kind: OrnamentKind, d: OrnamentDraw) returns (matrix: InstanceTransform, c: Rgb, sc: Vec3)
    ensures matrix == Transform(m, kind, d)
    ensures c == OrnamentColor(kind, d.color)
    ensures sc == Scatter(m, kind, d)
  {
    var pos := ConePos(m, d.height, d.theta, if kind == Box then 0.2 else 0.0);
    var rotation := Vec3(d.rotX * PI, d.rotY * PI, d.rotZ * PI);
    var scale := if kind == Box then 0.5 + d.scale * 0.5 else 0.3 + d.scale * 0.4;
    matrix := InstanceTransform(pos, rotation, scale);
    c := GOLD;
    if kind == Box {
      var rand := d.color;
      if rand < 0.5 {
        c := RED;
      } else if rand < 0.8 {
        c := GOLD;
      } else {
        c := BLUE;
      }
    } else {
      var rand := d.color;
      if rand < 0.4 {
        c := GOLD;
      } else if rand < 0.7 {
        c := RED;
      } else if rand < 0.9 {
        c := WHITE;
      } else {
        c := EMERALD;
      }
    }
    var distMult := if kind == Box then 30.0 else 45.0;
    var scatterDir := Normalize(m, pos);
    sc := Scale(scatterDir, 30.0 + d.distance * distMult);
    sc := sc.(y := sc.y + (d.lift - 0.5) * 40.0);
  }

  /** One pass of the `generateData` loop: the next instance's matrix is pushed and its colour and scatter written. */
  method AppendInstance(m: MathLib, kind: OrnamentKind, d: OrnamentDraw, data: OrnamentData, ghost colorRun: seq<Vec3>, ghost scatterRun: seq<Vec3>)
    requires data.Valid() && |data.matrices| == |colorRun| == |scatterRun| < data.count
    requires StoresRun(data.colors[..], colorRun) && StoresRun(data.scatterPos[..], scatterRun)
    modifies data, data.colors, data.scatterPos
    ensures data.matrices == old(data.matrices) + [Transform(m, kind, d)]
    ensures StoresRun(data.colors[..], colorRun + [ColorVec(OrnamentColor(kind, d.color))])
    ensures StoresRun(data.scatterPos[..], scatterRun + [Scatter(m, kind, d)])
  {
    var i := |data.matrices|;
    var matrix, c, sc := PlaceInstance(m, kind, d);
    data.matrices := data.matrices + [matrix];
    WriteTripleNext(data.colors[..], colorRun, ColorVec(c));
    WriteTripleNext(data.scatterPos[..], scatterRun, sc);
    data.PutInstance(i, c, sc);
  }

  /**
   * `generateData`: instance i's colour and scatter position go to entries
   * [3i, 3i + 3) of their buffers and its transform is the i-th matrix pushed.
   */
  method GenerateData(m: MathLib, count: nat, kind: OrnamentKind, draws: seq<OrnamentDraw>) returns (data: OrnamentData)
    requires |draws| == count
    ensures fresh(data) && data.Valid() && data.count == count
    ensures |data.matrices| == count
    ensures forall i :: 0 <= i < count ==> data.matrices[i] == Transform(m, kind, draws[i])
    ensures forall i :: 0 <= i < count ==>
      StoredTriple(data.colors[..], i, OrnamentColor(kind, draws[i].color).r,
        OrnamentColor(kind, draws[i].color).g, OrnamentColor(kind, draws[i].color).b)
    ensures forall i :: 0 <= i < count ==>
      StoredTriple(data.scatterPos[..], i, Scatter(m, kind, draws[i]).x, Scatter(m, kind, draws[i]).y, Scatter(m, kind, draws[i]).z)
  {
    data := new OrnamentData(count);
    ghost var colorRun: seq<Vec3> := [];
    ghost var scatterRun: seq<Vec3> := [];
    var i := 0;
    while i < count
      invariant 0 <= i <= count && |colorRun| == i && |scatterRun| == i && |data.matrices| == i
      invariant forall j :: 0 <= j < i ==> data.matrices[j] == Transform(m, kind, draws[j])
      invariant forall j :: 0 <= j < i ==> colorRun[j] == ColorVec(OrnamentColor(kind, draws[j].color))
      invariant forall j :: 0 <= j < i ==> scatterRun[j] == Scatter(m, kind, draws[j])
      invariant StoresRun(data.colors[..], colorRun)
      invariant StoresRun(data.scatterPos[..], scatterRun)
    {
      AppendInstance(m, kind, draws[i], data, colorRun, scatterRun);
      colorRun := colorRun + [ColorVec(OrnamentColor(kind, draws[i].color))];
      scatterRun := scatterRun + [Scatter(m, kind, draws[i])];
      i := i + 1;
    }
  }

  /** Both kinds' data: 400 boxes and 600 spheres. */
  method GenerateBoth(m: MathLib, boxDraws: seq<OrnamentDraw>, sphereDraws: seq<OrnamentDraw>)
    returns (boxData: OrnamentData, sphereData: OrnamentData)
    requires |boxDraws| == ORNAMENT_COUNT_BOX && |sphereDraws| == ORNAMENT_COUNT_SPHERE
    ensures boxData.count == ORNAMENT_COUNT_BOX && |boxData.matrices| == ORNAMENT_COUNT_BOX
    ensures sphereData.count == ORNAMENT_COUNT_SPHERE && |sphereData.matrices| == ORNAMENT_COUNT_SPHERE
    ensures forall i :: 0 <= i < ORNAMENT_COUNT_BOX ==> boxData.matrices[i] == Transform(m, Box, boxDraws[i])
    ensures forall i :: 0 <= i < ORNAMENT_COUNT_SPHERE ==> sphereData.matrices[i] == Transform(m, Sphere, sphereDraws[i])
    ensures fresh(boxData) && fresh(sphereData)
    ensures forall i :: 0 <= i < ORNAMENT_COUNT_BOX ==>
      StoredTriple(boxData.colors[..], i, OrnamentColor(Box, boxDraws[i].color).r,
        OrnamentColor(Box, boxDraws[i].color).g, OrnamentColor(Box, boxDraws[i].color).b)
    ensures forall i :: 0 <= i < ORNAMENT_COUNT_BOX ==>
      StoredTriple(boxData.scatterPos[..], i, Scatter(m, Box, boxDraws[i]).x, Scatter(m, Box, boxDraws[i]).y, Scatter(m, Box, boxDraws[i]).z)
    ensures forall i :: 0 <= i < ORNAMENT_COUNT_SPHERE ==>
      StoredTriple(sphereData.colors[..], i, OrnamentColor(Sphere, sphereDraws[i].color).r,
        OrnamentColor(Sphere, sphereDraws[i].color).g, OrnamentColor(Sphere, sphereDraws[i].color).b)
    ensures forall i :: 0 <= i < ORNAMENT_COUNT_SPHERE ==>
      StoredTriple(sphereData.scatterPos[..], i, Scatter(m, Sphere, sphereDraws[i]).x, Scatter(m, Sphere, sphereDraws[i]).y, Scatter(m, Sphere, sphereDraws[i]).z)
  {
    boxData := GenerateData(m, ORNAMENT_COUNT_BOX, Box, boxDraws);
    sphereData := GenerateData(m, ORNAMENT_COUNT_SPHERE, Sphere, sphereDraws);
  }

  /** An instanced mesh's matrix slots. */
  class InstancedMesh {
    const count: nat
    const instanceMatrix: array<InstanceTransform>
    var needsUpdate: bool

    constructor(count: nat)
      ensures this.count == count && instanceMatrix.Length == count && fresh(instanceMatrix)
      ensures forall i :: 0 <= i < count ==> instanceMatrix[i] == IDENTITY
      ensures !needsUpdate
    {
      this.count := count;
      instanceMatrix := new InstanceTransform[count](_ => IDENTITY);
      needsUpdate := false;
    }

    /** `matrices.forEach((mat, i) => setMatrixAt(i, mat))`, then flags the buffer for upload. */
    method InstallMatrices(matrices: seq<InstanceTransform>)
      requires |matrices| <= instanceMatrix.Length
      modifies this, instanceMatrix
      ensures instanceMatrix[..|matrices|] == matrices
      ensures instanceMatrix[|matrices|..] == old(instanceMatrix[|matrices|..])
      ensures needsUpdate
    {
      var i := 0;
      while i < |matrices|
        invariant 0 <= i <= |matrices|
        invariant instanceMatrix[..i] == matrices[..i]
        invariant instanceMatrix[|matrices|..] == old(instanceMatrix[|matrices|..])
      {
        instanceMatrix[i] := matrices[i];
        i := i + 1;
      }
      needsUpdate := true;
    }
  }

  /** The layout effect: each kind's matrices go into its mesh, slot i getting matrix i. */
  method InstallAll(boxMesh: InstancedMesh, sphereMesh: InstancedMesh, boxData: OrnamentData, sphereData: OrnamentData)
    requires boxMesh != sphereMesh && boxMesh.instanceMatrix != sphereMesh.instanceMatrix
    requires |boxData.matrices| == boxMesh.instanceMatrix.Length
    requires |sphereData.matrices| == sphereMesh.instanceMatrix.Length
    modifies boxMesh, boxMesh.instanceMatrix, sphereMesh, sphereMesh.instanceMatrix
    ensures boxMesh.instanceMatrix[..] == boxData.matrices && boxMesh.needsUpdate
    ensures sphereMesh.instanceMatrix[..] == sphereData.matrices && sphereMesh.needsUpdate
  {
    boxMesh.InstallMatrices(boxData.matrices);
    sphereMesh.InstallMatrices(sphereData.matrices);
  }
}
