/**
 * The tree's particle buffers. The foliage layer holds 18000 particles on and
 * inside the cone; the effects layer holds 3000 dust particles followed by 2000
 * ribbon particles. Every particle has a structural position, a scatter
 * position, a colour, a size, a type tag (0 foliage, 1 dust, 2 ribbon) and a
 * time offset, each in its own flat buffer.
 */
module TreeParticles {
  import opened Smoothing
  import opened Geometry
  import opened Constants
  import opened Cone
  import opened Buffers

  /** The attribute values of one particle. */
  datatype Particle = Particle(position: Vec3, scatter: Vec3, color: Rgb, size: real, kind: real, offset: real)

  /** The `Math.random()` draws for one foliage particle, in the order they are made. */
  datatype FoliageDraw = FoliageDraw(
    height: real, bias: real, theta: real, shell: real, scatterTheta: real, scatterPhi: real,
    color: real, size: real, offset: real)

  /** The draws for one dust particle. */
  datatype DustDraw = DustDraw(radius: real, theta: real, height: real, scale: real, size: real, offset: real)

  /** The draws for one ribbon particle. */
  datatype RibbonDraw = RibbonDraw(theta: real, height: real, size: real)

  predicate Unit(u: real)
  {
    0.0 <= u < 1.0
  }

  predicate ValidFoliageDraw(d: FoliageDraw)
  {
    Unit(d.height) && Unit(d.bias) && Unit(d.theta) && Unit(d.shell) && Unit(d.scatterTheta)
    && Unit(d.scatterPhi) && Unit(d.color) && Unit(d.size) && Unit(d.offset)
  }

  predicate ValidDustDraw(d: DustDraw)
  {
    Unit(d.radius) && Unit(d.theta) && Unit(d.height) && Unit(d.scale) && Unit(d.size) && Unit(d.offset)
  }

  predicate ValidRibbonDraw(d: RibbonDraw)
  {
    Unit(d.theta) && Unit(d.height) && Unit(d.size)
  }

  const FOLIAGE_TYPE: real := 0.0
  const DUST_TYPE: real := 1.0
  const RIBBON_TYPE: real := 2.0

  const DUST_COLOR: Rgb := Rgb(1.0, 0.9, 0.6)
  const RIBBON_COLOR: Rgb := Rgb(1.0, 0.8, 0.2)

  /** The exponent that pushes foliage toward the cone's surface. */
  const BIAS_EXPONENT: real := 0.3

  /** The radius of the ribbon's scatter ring. */
  const RIBBON_RING: real := 60.0

  /** Mostly deep green, some emerald, a few lime highlights. */
  function FoliageColor(rand: real): Rgb
  {
    if rand > 0.95 then LIME_GREEN else if rand > 0.8 then EMERALD else DEEP_GREEN
  }

  /** The foliage particle's distance from the axis: the cone's radius scaled by a biased draw. */
  function FoliageRadius(m: MathLib, d: FoliageDraw): real
  {
    SurfaceRadius(ConeHeight(d.height)) * m.pow(d.bias, BIAS_EXPONENT)
  }

  /** The radius of the foliage particle's scatter shell. */
  function ShellRadius(d: FoliageDraw): real
  {
    40.0 + d.shell * 40.0
  }

  /** The foliage particle's place in the cone. */
  function FoliagePosition(m: MathLib, d: FoliageDraw): Vec3
  {
    var theta := d.theta * PI * 2.0;
    Vec3(FoliageRadius(m, d) * m.cos(theta), ConeHeight(d.height), FoliageRadius(m, d) * m.sin(theta))
  }

  /** Its scatter position: polar angle acos(2u - 1) and a random azimuth on the shell. */
  function FoliageScatter(m: MathLib, d: FoliageDraw): Vec3
  {
    var sr := ShellRadius(d);
    var stheta := d.scatterTheta * PI * 2.0;
    var sphi := m.acos(2.0 * d.scatterPhi - 1.0);
    Vec3(sr * m.sin(sphi) * m.cos(stheta), sr * m.sin(sphi) * m.sin(stheta), sr * m.cos(sphi))
  }

  function Foliage(m: MathLib, d: FoliageDraw): Particle
  {
    Particle(FoliagePosition(m, d), FoliageScatter(m, d), FoliageColor(d.color), d.size * 0.8 + 0.5, FOLIAGE_TYPE, d.offset * 10.0)
  }

  function DustRadius(d: DustDraw): real
  {
    d.radius * 20.0 + 5.0
  }

  /** The single factor applied to all three coordinates of a dust particle's position. */
  function DustScale(d: DustDraw): real
  {
    4.0 + d.scale * 2.0
  }

  function Dust(m: MathLib, d: DustDraw): Particle
  {
    var r := DustRadius(d);
    var theta := d.theta * PI * 2.0;
    var pos := Vec3(r * m.cos(theta), (d.height - 0.5) * TREE_HEIGHT * 2.0, r * m.sin(theta));
    var s := DustScale(d);
    Particle(pos, Vec3(pos.x * s, pos.y * s, pos.z * s), DUST_COLOR, d.size * 0.2 + 0.05, DUST_TYPE, d.offset * 10.0)
  }

  /** Ribbon particle i's offset: its share of the ribbon times the tree height. */
  function RibbonOffset(i: nat): real
  {
    (i as real / PARTICLE_COUNT_RIBBON as real) * TREE_HEIGHT
  }

  /** Ribbon particle i; its structural position is the origin (the shader places it). */
  function Ribbon(m: MathLib, i: nat, d: RibbonDraw): Particle
  {
    var stheta := d.theta * PI * 2.0;
    Particle(
      Origin,
      Vec3(RIBBON_RING * m.cos(stheta), (d.height - 0.5) * 60.0, RIBBON_RING * m.sin(stheta)),
      RIBBON_COLOR,
      d.size * 0.5 + 0.3,
      RIBBON_TYPE,
      RibbonOffset(i))
  }

  /** The colour table: lime above 0.95, emerald in (0.8, 0.95], deep green up to 0.8. */
  lemma FoliageColorTable(rand: real)
    ensures FoliageColor(rand) == LIME_GREEN <==> rand > 0.95
    ensures FoliageColor(rand) == EMERALD <==> 0.8 < rand <= 0.95
    ensures FoliageColor(rand) == DEEP_GREEN <==> rand <= 0.8
  {
  }

  /** A point at polar angle phi and azimuth theta on a sphere of radius sr is at squared distance sr squared. */
  lemma SphericalRadius(m: MathLib, sr: real, phi: real, theta: real)
    requires ValidMath(m)
    ensures NormSq(Vec3(sr * m.sin(phi) * m.cos(theta), sr * m.sin(phi) * m.sin(theta), sr * m.cos(phi))) == sr * sr
  {
    var R := sr * m.sin(phi);
    PolarRadius(m, R, theta, 0.0);
    PolarRadius(m, sr, phi, 0.0);
    calc {
      NormSq(Vec3(R * m.cos(theta), R * m.sin(theta), sr * m.cos(phi)));
      HorizontalSq(Vec3(R * m.cos(theta), 0.0, R * m.sin(theta))) + (sr * m.cos(phi)) * (sr * m.cos(phi));
      R * R + (sr * m.cos(phi)) * (sr * m.cos(phi));
      HorizontalSq(Vec3(sr * m.cos(phi), 0.0, sr * m.sin(phi)));
      sr * sr;
    }
  }

  /** Scaling a positive radius by a factor in [0, 1) keeps it non-negative and strictly smaller. */
  lemma ScaledBelow(surface: real, bias: real, radius: real)
    requires surface > 0.0 && 0.0 <= bias < 1.0 && radius == surface * bias
    ensures 0.0 <= radius < surface
  {
    NonNegativeProduct(surface, bias);
    PositiveProduct(surface, 1.0 - bias);
    assert surface - surface * bias == surface * (1.0 - bias);
  }

  /**
   * A foliage particle lies at a height in [-15, 15), no further from the axis
   * than the cone's surface there.
   */
  lemma FoliageInCone(m: MathLib, d: FoliageDraw)
    requires ValidMath(m) && ValidFoliageDraw(d)
    ensures -15.0 <= FoliagePosition(m, d).y < 15.0
    ensures HorizontalSq(FoliagePosition(m, d)) == FoliageRadius(m, d) * FoliageRadius(m, d)
    ensures 0.0 <= FoliageRadius(m, d) < SurfaceRadius(FoliagePosition(m, d).y)
  {
    var y := ConeHeight(d.height);
    ConeRanges(d.height);
    var surface, bias := SurfaceRadius(y), m.pow(d.bias, BIAS_EXPONENT);
    ScaledBelow(surface, bias, FoliageRadius(m, d));
    assert FoliagePosition(m, d).y == y;
    PolarRadius(m, FoliageRadius(m, d), d.theta * PI * 2.0, y);
  }

  /** A foliage particle scatters onto a sphere of radius 40 to 80 around the centre. */
  lemma FoliageScatterShell(m: MathLib, d: FoliageDraw)
    requires ValidMath(m) && ValidFoliageDraw(d)
    ensures NormSq(FoliageScatter(m, d)) == ShellRadius(d) * ShellRadius(d)
    ensures 40.0 <= ShellRadius(d) < 80.0
  {
    SphericalRadius(m, ShellRadius(d), m.acos(2.0 * d.scatterPhi - 1.0), d.scatterTheta * PI * 2.0);
  }

  /** A foliage particle has type 0, a size in [0.5, 1.3), an offset in [0, 10) and a colour from its table. */
  lemma FoliageAttributes(m: MathLib, d: FoliageDraw)
    requires ValidFoliageDraw(d)
    ensures var p := Foliage(m, d);
      && p.position == FoliagePosition(m, d) && p.scatter == FoliageScatter(m, d)
      && p.kind == FOLIAGE_TYPE && 0.5 <= p.size < 1.3 && 0.0 <= p.offset < 10.0
      && p.color == FoliageColor(d.color)
  {
  }

  /**
   * A dust particle lies on a circle of radius 5 to 25 around the axis, at a
   * height in [-30, 30), and scatters to its position scaled by one factor in
   * [4, 6); it has type 1, a size in [0.05, 0.25) and an offset in [0, 10).
   */
  lemma DustRanges(m: MathLib, d: DustDraw)
    requires ValidMath(m) && ValidDustDraw(d)
    ensures var p := Dust(m, d);
      && HorizontalSq(p.position) == DustRadius(d) * DustRadius(d)
      && 5.0 <= DustRadius(d) < 25.0
      && -30.0 <= p.position.y < 30.0
      && p.scatter == Scale(p.position, DustScale(d))
      && 4.0 <= DustScale(d) < 6.0
      && p.kind == DUST_TYPE
      && 0.05 <= p.size < 0.25
      && 0.0 <= p.offset < 10.0
  {
    PolarRadius(m, DustRadius(d), d.theta * PI * 2.0, (d.height - 0.5) * TREE_HEIGHT * 2.0);
  }

  /**
   * A ribbon particle sits at the origin and scatters onto the ring of radius 60
   * at a height in [-30, 30); it has type 2, a size in [0.3, 0.8), and the
   * offset of particle i is in [0, 30) and grows strictly with i.
   */
  lemma RibbonRanges(m: MathLib, i: nat, d: RibbonDraw)
    requires ValidMath(m) && ValidRibbonDraw(d)
    requires i < PARTICLE_COUNT_RIBBON
    ensures var p := Ribbon(m, i, d);
      && p.position == Origin
      && HorizontalSq(p.scatter) == RIBBON_RING * RIBBON_RING
      && -30.0 <= p.scatter.y < 30.0
      && p.kind == RIBBON_TYPE
      && 0.3 <= p.size < 0.8
      && 0.0 <= p.offset < TREE_HEIGHT
      && (i + 1 < PARTICLE_COUNT_RIBBON ==> p.offset < RibbonOffset(i + 1))
  {
    PolarRadius(m, RIBBON_RING, d.theta * PI * 2.0, (d.height - 0.5) * 60.0);
  }

  /** Snapshots of the six buffers of one attribute set. */
  datatype AttributeData = AttributeData(
    positions: seq<real>, scatterPos: seq<real>, colors: seq<real>,
    sizes: seq<real>, types: seq<real>, offsets: seq<real>)

  /** Three components per particle in the vector buffers, one in the scalar ones. */
  predicate Shaped(data: AttributeData, count: nat)
  {
    && |data.positions| == 3 * count && |data.scatterPos| == 3 * count && |data.colors| == 3 * count
    && |data.sizes| == count && |data.types| == count && |data.offsets| == count
  }

  /** Particle p is stored at slot j. */
  predicate HoldsAt(data: AttributeData, j: nat, p: Particle)
  {
    && StoredTriple(data.positions, j, p.position.x, p.position.y, p.position.z)
    && StoredTriple(data.scatterPos, j, p.scatter.x, p.scatter.y, p.scatter.z)
    && StoredTriple(data.colors, j, p.color.r, p.color.g, p.color.b)
    && j < |data.sizes| && data.sizes[j] == p.size
    && j < |data.types| && data.types[j] == p.kind
    && j < |data.offsets| && data.offsets[j] == p.offset
  }

  /** Every entry outside slot `slot` is as before. */
  predicate SameOutside(data: AttributeData, r: AttributeData, slot: nat)
  {
    && SameOutsideTriple(data.positions, r.positions, slot)
    && SameOutsideTriple(data.scatterPos, r.scatterPos, slot)
    && SameOutsideTriple(data.colors, r.colors, slot)
    && |r.sizes| == |data.sizes| && (forall k :: 0 <= k < |data.sizes| && k != slot ==> r.sizes[k] == data.sizes[k])
    && |r.types| == |data.types| && (forall k :: 0 <= k < |data.types| && k != slot ==> r.types[k] == data.types[k])
    && |r.offsets| == |data.offsets| && (forall k :: 0 <= k < |data.offsets| && k != slot ==> r.offsets[k] == data.offsets[k])
  }

  /** Writing one particle into its slot: it is stored there, and nothing else changes. */
  function WriteParticle(data: AttributeData, count: nat, slot: nat, p: Particle): (r: AttributeData)
    requires Shaped(data, count) && slot < count
    ensures Shaped(r, count)
    ensures HoldsAt(r, slot, p)
    ensures SameOutside(data, r, slot)
  {
    AttributeData(
      WriteTriple(data.positions, slot, p.position.x, p.position.y, p.position.z),
      WriteTriple(data.scatterPos, slot, p.scatter.x, p.scatter.y, p.scatter.z),
      WriteTriple(data.colors, slot, p.color.r, p.color.g, p.color.b),
      data.sizes[slot := p.size],
      data.types[slot := p.kind],
      data.offsets[slot := p.offset])
  }

  /** A particle stored at another slot is still stored there after a write. */
  lemma WriteParticleKeepsOthers(data: AttributeData, count: nat, slot: nat, p: Particle, j: nat, q: Particle)
    requires Shaped(data, count) && slot < count
    requires j != slot && HoldsAt(data, j, q)
    ensures HoldsAt(WriteParticle(data, count, slot, p), j, q)
  {
    WriteTripleKeepsOthers(data.positions, slot, p.position.x, p.position.y, p.position.z, j, q.position.x, q.position.y, q.position.z);
    WriteTripleKeepsOthers(data.scatterPos, slot, p.scatter.x, p.scatter.y, p.scatter.z, j, q.scatter.x, q.scatter.y, q.scatter.z);
    WriteTripleKeepsOthers(data.colors, slot, p.color.r, p.color.g, p.color.b, j, q.color.r, q.color.g, q.color.b);
  }

  predicate SameTriple(a: seq<real>, b: seq<real>, j: nat)
  {
    3 * j + 3 <= |a| && 3 * j + 3 <= |b| && a[3 * j] == b[3 * j] && a[3 * j + 1] == b[3 * j + 1] && a[3 * j + 2] == b[3 * j + 2]
  }

  /** Slot j holds the same values in both snapshots. */
  predicate SameSlot(a: AttributeData, b: AttributeData, j: nat)
  {
    && SameTriple(a.positions, b.positions, j)
    && SameTriple(a.scatterPos, b.scatterPos, j)
    && SameTriple(a.colors, b.colors, j)
    && j < |a.sizes| && j < |b.sizes| && a.sizes[j] == b.sizes[j]
    && j < |a.types| && j < |b.types| && a.types[j] == b.types[j]
    && j < |a.offsets| && j < |b.offsets| && a.offsets[j] == b.offsets[j]
  }

  /** A write to one slot leaves every other slot as it was. */
  lemma WriteParticleKeepsSlot(data: AttributeData, count: nat, slot: nat, p: Particle, j: nat)
    requires Shaped(data, count) && slot < count && j < count && j != slot
    ensures SameSlot(data, WriteParticle(data, count, slot, p), j)
  {
    var r := WriteParticle(data, count, slot, p);
    assert j < slot || slot < j;
    assert 3 * j + 2 < 3 * slot || 3 * slot + 3 <= 3 * j;
  }

  /**
   * After a write to slot `slot`, every slot below `start` that agreed with
   * `initial` still does.
   */
  lemma WriteKeepsPrefix(initial: AttributeData, before: AttributeData, count: nat, slot: nat, p: Particle, start: nat)
    requires Shaped(before, count) && start <= slot < count
    requires forall j :: 0 <= j < start ==> SameSlot(initial, before, j)
    ensures forall j :: 0 <= j < start ==> SameSlot(initial, WriteParticle(before, count, slot, p), j)
  {
    forall j | 0 <= j < start
      ensures SameSlot(initial, WriteParticle(before, count, slot, p), j)
    {
      WriteParticleKeepsSlot(before, count, slot, p, j);
      SameSlotTransitive(initial, before, WriteParticle(before, count, slot, p), j);
    }
  }

  /**
   * Writing the next particle of a run that starts at slot `start`: the run so
   * far stays in place, the new particle joins it, and the slots below `start`
   * keep agreeing with `initial`.
   */
  lemma WriteNext(initial: AttributeData, before: AttributeData, count: nat, start: nat, run: seq<Particle>, p: Particle)
    requires Shaped(before, count) && start + |run| < count
    requires forall j :: 0 <= j < |run| ==> HoldsAt(before, start + j, run[j])
    requires forall j :: 0 <= j < start ==> SameSlot(initial, before, j)
    ensures var after := WriteParticle(before, count, start + |run|, p);
      && Shaped(after, count)
      && (forall j :: 0 <= j < |run| + 1 ==> HoldsAt(after, start + j, (run + [p])[j]))
      && (forall j :: 0 <= j < start ==> SameSlot(initial, after, j))
  {
    var after := WriteParticle(before, count, start + |run|, p);
    forall j | 0 <= j < |run| + 1
      ensures HoldsAt(after, start + j, (run + [p])[j])
    {
      if j < |run| {
        WriteParticleKeepsOthers(before, count, start + |run|, p, start + j, run[j]);
      }
    }
    WriteKeepsPrefix(initial, before, count, start + |run|, p, start);
  }

  lemma SameSlotTransitive(a: AttributeData, b: AttributeData, c: AttributeData, j: nat)
    requires SameSlot(a, b, j) && SameSlot(b, c, j)
    ensures SameSlot(a, c, j)
  {
    assert SameTriple(a.positions, c.positions, j);
    assert SameTriple(a.scatterPos, c.scatterPos, j);
    assert SameTriple(a.colors, c.colors, j);
  }

  lemma SameSlotHolds(a: AttributeData, b: AttributeData, j: nat, p: Particle)
    requires SameSlot(a, b, j) && HoldsAt(a, j, p)
    ensures HoldsAt(b, j, p)
  {
  }

  /** One set of `Float32Array` buffers, created zeroed. */
  class Attributes {
    const count: nat
    const positions: array<real>
    const scatterPos: array<real>
    const colors: array<real>
    const sizes: array<real>
    const types: array<real>
    const offsets: array<real>

    ghost predicate Valid()
      reads this
    {
      && positions.Length == 3 * count && scatterPos.Length == 3 * count && colors.Length == 3 * count
      && sizes.Length == count && types.Length == count && offsets.Length == count
      && positions != scatterPos && positions != colors && scatterPos != colors
      && sizes != types && sizes != offsets && types != offsets
      && positions != sizes && positions != types && positions != offsets
      && scatterPos != sizes && scatterPos != types && scatterPos != offsets
      && colors != sizes && colors != types && colors != offsets
    }

    ghost function Data(): AttributeData
      reads this, positions, scatterPos, colors, sizes, types, offsets
    {
      AttributeData(positions[..], scatterPos[..], colors[..], sizes[..], types[..], offsets[..])
    }

    constructor(count: nat)
      ensures Valid() && this.count == count
      ensures fresh(positions) && fresh(scatterPos) && fresh(colors)
      ensures fresh(sizes) && fresh(types) && fresh(offsets)
      ensures forall k :: 0 <= k < 3 * count ==> positions[k] == 0.0 && scatterPos[k] == 0.0 && colors[k] == 0.0
      ensures forall k :: 0 <= k < count ==> sizes[k] == 0.0 && types[k] == 0.0 && offsets[k] == 0.0
    {
      this.count := count;
      positions := new real[3 * count](_ => 0.0);
      scatterPos := new real[3 * count](_ => 0.0);
      colors := new real[3 * count](_ => 0.0);
      sizes := new real[count](_ => 0.0);
      types := new real[count](_ => 0.0);
      offsets := new real[count](_ => 0.0);
    }

    /** Writes the attribute values of the particle at `slot`. */
    method Put(slot: nat, p: Particle)
      requires Valid() && slot < count
      modifies positions, scatterPos, colors, sizes, types, offsets
      ensures Data() == WriteParticle(old(Data()), count, slot, p)
    {
      StoreTriple(positions, slot, p.position.x, p.position.y, p.position.z);
      StoreTriple(scatterPos, slot, p.scatter.x, p.scatter.y, p.scatter.z);
      StoreTriple(colors, slot, p.color.r, p.color.g, p.color.b);
      sizes[slot] := p.size;
      types[slot] := p.kind;
      offsets[slot] := p.offset;
    }

    /**
     * Writes the next particle of a run of slots starting at `start`: the run
     * grows by it and the slots below `start` keep agreeing with `initial`.
     */
    method PutNext(ghost initial: AttributeData, start: nat, ghost run: seq<Particle>, slot: nat, p: Particle)
      requires Valid() && slot == start + |run| < count
      requires forall j :: 0 <= j < |run| ==> HoldsAt(Data(), start + j, run[j])
      requires forall j :: 0 <= j < start ==> SameSlot(initial, Data(), j)
      modifies positions, scatterPos, colors, sizes, types, offsets
      ensures Shaped(Data(), count)
      ensures forall j :: 0 <= j < |run| + 1 ==> HoldsAt(Data(), start + j, (run + [p])[j])
      ensures forall j :: 0 <= j < start ==> SameSlot(initial, Data(), j)
    {
      WriteNext(initial, Data(), count, start, run, p);
      Put(slot, p);
    }
  }

  /** The attribute values the foliage loop computes for one particle. */
  method FoliageParticle(m: MathLib, d: FoliageDraw) returns (p: Particle)
    ensures p == Foliage(m, d)
  {
    var y := d.height * TREE_HEIGHT - (TREE_HEIGHT / 2.0);
    var progress := (y + (TREE_HEIGHT / 2.0)) / TREE_HEIGHT;
    var rBias := m.pow(d.bias, 0.3);
    var r := (1.0 - progress) * TREE_RADIUS * rBias;
    var theta := d.theta * PI * 2.0;
    var sr := 40.0 + d.shell * 40.0;
    var stheta := d.scatterTheta * PI * 2.0;
    var sphi := m.acos(2.0 * d.scatterPhi - 1.0);
    var c := DEEP_GREEN;
    if d.color > 0.8 {
      c := EMERALD;
    }
    if d.color > 0.95 {
      c := LIME_GREEN;
    }
    p := Particle(
      Vec3(r * m.cos(theta), y, r * m.sin(theta)),
      Vec3(sr * m.sin(sphi) * m.cos(stheta), sr * m.sin(sphi) * m.sin(stheta), sr * m.cos(sphi)),
      c, d.size * 0.8 + 0.5, 0.0, d.offset * 10.0);
    assert y == ConeHeight(d.height) && r == FoliageRadius(m, d);
  }

  /** The attribute values the dust loop computes for one particle. */
  method DustParticle(m: MathLib, d: DustDraw) returns (p: Particle)
    ensures p == Dust(m, d)
  {
    var r := d.radius * 20.0 + 5.0;
    var theta := d.theta * PI * 2.0;
    var y := (d.height - 0.5) * TREE_HEIGHT * 2.0;
    var pos := Vec3(r * m.cos(theta), y, r * m.sin(theta));
    var scatterScale := 4.0 + d.scale * 2.0;
    p := Particle(
      pos, Vec3(pos.x * scatterScale, pos.y * scatterScale, pos.z * scatterScale),
      Rgb(1.0, 0.9, 0.6), d.size * 0.2 + 0.05, 1.0, d.offset * 10.0);
  }

  /** The attribute values the ribbon loop computes for particle i. */
  method RibbonParticle(m: MathLib, i: nat, d: RibbonDraw) returns (p: Particle)
    ensures p == Ribbon(m, i, d)
  {
    var sr := 60.0;
    var stheta := d.theta * PI * 2.0;
    p := Particle(
      Vec3(0.0, 0.0, 0.0),
      Vec3(sr * m.cos(stheta), (d.height - 0.5) * 60.0, sr * m.sin(stheta)),
      Rgb(1.0, 0.8, 0.2), d.size * 0.5 + 0.3, 2.0,
      (i as real / PARTICLE_COUNT_RIBBON as real) * TREE_HEIGHT);
  }

  /** Fills the foliage buffers: particle i at slot i. */
  method FillFoliage(m: MathLib, tree: Attributes, foliage: seq<FoliageDraw>)
    requires tree.Valid() && tree.count == |foliage|
    modifies tree.positions, tree.scatterPos, tree.colors, tree.sizes, tree.types, tree.offsets
    ensures forall i :: 0 <= i < |foliage| ==> HoldsAt(tree.Data(), i, Foliage(m, foliage[i]))
  {
    ghost var initial := tree.Data();
    ghost var run: seq<Particle> := [];
    var i := 0;
    while i < |foliage|
      invariant 0 <= i <= |foliage| && |run| == i
      invariant forall j :: 0 <= j < i ==> run[j] == Foliage(m, foliage[j])
      invariant Shaped(tree.Data(), tree.count)
      invariant forall j :: 0 <= j < i ==> HoldsAt(tree.Data(), j, run[j])
    {
      var p := FoliageParticle(m, foliage[i]);
      tree.PutNext(initial, 0, run, i, p);
      run := run + [p];
      i := i + 1;
    }
  }

  /** Fills the dust particles into effect slots [start, start + |dust|), returning the next free slot. */
  method FillDust(m: MathLib, effects: Attributes, start: nat, dust: seq<DustDraw>) returns (idx: nat)
    requires effects.Valid() && start + |dust| <= effects.count
    modifies effects.positions, effects.scatterPos, effects.colors, effects.sizes, effects.types, effects.offsets
    ensures idx == start + |dust|
    ensures forall i :: 0 <= i < |dust| ==> HoldsAt(effects.Data(), start + i, Dust(m, dust[i]))
    ensures forall j :: 0 <= j < start ==> SameSlot(old(effects.Data()), effects.Data(), j)
  {
    ghost var initial := effects.Data();
    ghost var run: seq<Particle> := [];
    idx := start;
    var i := 0;
    while i < |dust|
      invariant 0 <= i <= |dust| && idx == start + i && |run| == i
      invariant forall j :: 0 <= j < i ==> run[j] == Dust(m, dust[j])
      invariant Shaped(effects.Data(), effects.count)
      invariant forall j :: 0 <= j < i ==> HoldsAt(effects.Data(), start + j, run[j])
      invariant forall j :: 0 <= j < start ==> SameSlot(initial, effects.Data(), j)
    {
      var p := DustParticle(m, dust[i]);
      effects.PutNext(initial, start, run, idx, p);
      run := run + [p];
      idx := idx + 1;
      i := i + 1;
    }
  }

  /** Fills ribbon particle i into effect slot start + i, returning the next free slot. */
  method FillRibbon(m: MathLib, effects: Attributes, start: nat, ribbon: seq<RibbonDraw>) returns (idx: nat)
    requires effects.Valid() && start + |ribbon| <= effects.count
    modifies effects.positions, effects.scatterPos, effects.colors, effects.sizes, effects.types, effects.offsets
    ensures idx == start + |ribbon|
    ensures forall i :: 0 <= i < |ribbon| ==> HoldsAt(effects.Data(), start + i, Ribbon(m, i, ribbon[i]))
    ensures forall j :: 0 <= j < start ==> SameSlot(old(effects.Data()), effects.Data(), j)
  {
    ghost var initial := effects.Data();
    ghost var run: seq<Particle> := [];
    idx := start;
    var i := 0;
    while i < |ribbon|
      invariant 0 <= i <= |ribbon| && idx == start + i && |run| == i
      invariant forall j :: 0 <= j < i ==> run[j] == Ribbon(m, j, ribbon[j])
      invariant Shaped(effects.Data(), effects.count)
      invariant forall j :: 0 <= j < i ==> HoldsAt(effects.Data(), start + j, run[j])
      invariant forall j :: 0 <= j < start ==> SameSlot(initial, effects.Data(), j)
    {
      var p := RibbonParticle(m, i, ribbon[i]);
      effects.PutNext(initial, start, run, idx, p);
      run := run + [p];
      idx := idx + 1;
      i := i + 1;
    }
  }

  /** Creates the tree's attribute set and fills foliage particle i into slot i. */
  method NewTreeAttributes(m: MathLib, foliage: seq<FoliageDraw>) returns (tree: Attributes)
    requires |foliage| == PARTICLE_COUNT_TREE
    ensures tree.Valid() && tree.count == PARTICLE_COUNT_TREE
    ensures forall i :: 0 <= i < PARTICLE_COUNT_TREE ==> HoldsAt(tree.Data(), i, Foliage(m, foliage[i]))
  {
    tree := new Attributes(PARTICLE_COUNT_TREE);
    FillFoliage(m, tree, foliage);
  }

  /**
   * Creates the effects' attribute set: dust particle i at slot i and ribbon
   * particle i at slot 3000 + i, through one running index.
   */
  method NewEffectAttributes(m: MathLib, dust: seq<DustDraw>, ribbon: seq<RibbonDraw>) returns (effects: Attributes)
    requires |dust| == PARTICLE_COUNT_DUST && |ribbon| == PARTICLE_COUNT_RIBBON
    ensures effects.Valid() && effects.count == PARTICLE_COUNT_DUST + PARTICLE_COUNT_RIBBON
    ensures forall i :: 0 <= i < PARTICLE_COUNT_DUST ==> HoldsAt(effects.Data(), i, Dust(m, dust[i]))
    ensures forall i :: 0 <= i < PARTICLE_COUNT_RIBBON ==>
      HoldsAt(effects.Data(), PARTICLE_COUNT_DUST + i, Ribbon(m, i, ribbon[i]))
  {
    effects := new Attributes(PARTICLE_COUNT_DUST + PARTICLE_COUNT_RIBBON);
    var idx := FillDust(m, effects, 0, dust);
    ghost var afterDust := effects.Data();
    idx := FillRibbon(m, effects, idx, ribbon);
    forall i | 0 <= i < PARTICLE_COUNT_DUST
      ensures HoldsAt(effects.Data(), i, Dust(m, dust[i]))
    {
      SameSlotHolds(afterDust, effects.Data(), i, Dust(m, dust[i]));
    }
  }

  /** Creates and fills both attribute sets. */
  method GenerateAttributes(m: MathLib, foliage: seq<FoliageDraw>, dust: seq<DustDraw>, ribbon: seq<RibbonDraw>)
    returns (tree: Attributes, effects: Attributes)
    requires |foliage| == PARTICLE_COUNT_TREE && |dust| == PARTICLE_COUNT_DUST && |ribbon| == PARTICLE_COUNT_RIBBON
    ensures tree.Valid() && effects.Valid()
    ensures tree.count == PARTICLE_COUNT_TREE && effects.count == PARTICLE_COUNT_DUST + PARTICLE_COUNT_RIBBON
    ensures forall i :: 0 <= i < PARTICLE_COUNT_TREE ==> HoldsAt(tree.Data(), i, Foliage(m, foliage[i]))
    ensures forall i :: 0 <= i < PARTICLE_COUNT_DUST ==> HoldsAt(effects.Data(), i, Dust(m, dust[i]))
    ensures forall i :: 0 <= i < PARTICLE_COUNT_RIBBON ==>
      HoldsAt(effects.Data(), PARTICLE_COUNT_DUST + i, Ribbon(m, i, ribbon[i]))
  {
    tree := NewTreeAttributes(m, foliage);
    effects := NewEffectAttributes(m, dust, ribbon);
  }
}
