/**
 * Photo placement: each uploaded photo is put on the cone's surface at a random
 * height, at a golden-angle step around the tree from the previous one, facing
 * outward, with a scatter position 25 to 40 units further out from the centre.
 * The new photos are appended to the photo list in upload order.
 */
module App {
  import opened Smoothing
  import opened Geometry
  import opened Constants
  import opened Types
  import opened Cone

  /** A photo source: a URL string used as it is, or a file whose object URL the browser creates. */
  datatype PhotoSource = UrlSource(url: string) | FileSource(objectUrl: string)

  /** The `Math.random()` draws made for one photo, in the order they are made, and its id string. */
  datatype PlacementDraw = PlacementDraw(height: real, jitter: real, scatter: real, lift: real, id: string)

  predicate ValidDraw(d: PlacementDraw)
  {
    0.0 <= d.height < 1.0 && 0.0 <= d.jitter < 1.0 && 0.0 <= d.scatter < 1.0 && 0.0 <= d.lift < 1.0
  }

  /** Radians between the base angles of consecutive photos of one upload. */
  const GOLDEN_ANGLE: real := 2.39996

  /** How far photos sit outside the foliage surface. */
  const SURFACE_OFFSET: real := 0.6

  function UrlOf(source: PhotoSource): string
  {
    match source
    case UrlSource(url) => url
    case FileSource(objectUrl) => objectUrl
  }

  /** The photo's height: the tree height less 3 at each end. */
  function Height(d: PlacementDraw): real
  {
    (d.height - 0.5) * (TREE_HEIGHT - 6.0)
  }

  /** The distance from the tree's axis: the cone's radius at that height plus the offset. */
  function Radius(y: real): real
  {
    SurfaceRadius(y) + SURFACE_OFFSET
  }

  /** The golden-angle schedule, without the per-photo jitter. */
  function BaseTheta(startTheta: real, index: nat): real
  {
    startTheta + index as real * GOLDEN_ANGLE
  }

  function Theta(startTheta: real, index: nat, d: PlacementDraw): real
  {
    BaseTheta(startTheta, index) + d.jitter * 0.5
  }

  function ScatterDistance(d: PlacementDraw): real
  {
    25.0 + d.scatter * 15.0
  }

  function ScatterLift(d: PlacementDraw): real
  {
    (d.lift - 0.5) * 10.0
  }

  /** The photo's place on the surface: at its radius and height, at its angle around the axis. */
  function SurfacePoint(m: MathLib, startTheta: real, index: nat, d: PlacementDraw): Vec3
  {
    var y := Height(d);
    var r := Radius(y);
    var theta := Theta(startTheta, index, d);
    Vec3(r * m.cos(theta), y, r * m.sin(theta))
  }

  /** The horizontal direction the photo faces. */
  function Facing(m: MathLib, theta: real): Vec3
  {
    Vec3(m.cos(theta), 0.0, m.sin(theta))
  }

  /** The photo record built for the source at `index`. */
  function Place(m: MathLib, startTheta: real, index: nat, source: PhotoSource, d: PlacementDraw): UploadedPhoto
  {
    var pos := SurfacePoint(m, startTheta, index, d);
    var rotationVec := Facing(m, Theta(startTheta, index, d));
    var scatterDir := Normalize(m, pos);
    var scatterPos := Add(pos, Scale(scatterDir, ScatterDistance(d)));
    UploadedPhoto(d.id, UrlOf(source), pos, rotationVec, scatterPos.(y := scatterPos.y + ScatterLift(d)))
  }

  /** The photos of one upload, in source order. */
  function PlaceAll(m: MathLib, startTheta: real, sources: seq<PhotoSource>, draws: seq<PlacementDraw>): (r: seq<UploadedPhoto>)
    requires |draws| == |sources|
    ensures |r| == |sources|
  {
    seq(|sources|, i requires 0 <= i < |sources| => Place(m, startTheta, i, sources[i], draws[i]))
  }

  /** Heights lie in [-12, 12), so the progress lies in [0.1, 0.9) and the radius in (1.8, 11.4]. */
  lemma HeightAndRadiusRanges(d: PlacementDraw)
    requires ValidDraw(d)
    ensures -12.0 <= Height(d) < 12.0
    ensures 0.1 <= Progress(Height(d)) < 0.9
    ensures 1.8 < Radius(Height(d)) <= 11.4
  {
    var y := Height(d);
    assert y == d.height * 24.0 - 12.0;
    assert Progress(y) == (y + 15.0) / 30.0;
    assert Radius(y) == 12.6 - 12.0 * Progress(y);
  }

  /** Consecutive photos of an upload are a golden angle apart before jitter; the jitter lies in [0, 0.5). */
  lemma GoldenAngleSpacing(startTheta: real, index: nat, d: PlacementDraw)
    requires ValidDraw(d)
    ensures BaseTheta(startTheta, index + 1) - BaseTheta(startTheta, index) == GOLDEN_ANGLE
    ensures 0.0 <= Theta(startTheta, index, d) - BaseTheta(startTheta, index) < 0.5
  {
  }

  /**
   * The photo sits at its height, at the radius for that height from the
   * tree's axis, and faces straight out along the horizontal unit vector of its
   * angle.
   */
  lemma PlacementGeometry(m: MathLib, startTheta: real, index: nat, source: PhotoSource, d: PlacementDraw)
    requires ValidMath(m)
    ensures Place(m, startTheta, index, source, d).position.y == Height(d)
    ensures HorizontalSq(Place(m, startTheta, index, source, d).position) == Radius(Height(d)) * Radius(Height(d))
    ensures Place(m, startTheta, index, source, d).rotation.y == 0.0
    ensures NormSq(Place(m, startTheta, index, source, d).rotation) == 1.0
    ensures Place(m, startTheta, index, source, d).id == d.id
    ensures Place(m, startTheta, index, source, d).url == UrlOf(source)
  {
    var theta := Theta(startTheta, index, d);
    var p := Place(m, startTheta, index, source, d);
    assert p.position == SurfacePoint(m, startTheta, index, d);
    assert p.rotation == Facing(m, theta);
    OnCircle(m, Radius(Height(d)), theta, Height(d), SurfacePoint(m, startTheta, index, d));
    OnCircle(m, 1.0, theta, 0.0, Facing(m, theta));
  }

  /** A point r cos(theta), y, r sin(theta) is at horizontal distance r from the axis. */
  lemma OnCircle(m: MathLib, r: real, theta: real, y: real, v: Vec3)
    requires ValidMath(m)
    requires v == Vec3(r * m.cos(theta), y, r * m.sin(theta))
    ensures HorizontalSq(v) == r * r && v.y == y
  {
    PolarRadius(m, r, theta, y);
  }


  /**
   * Before its lift the scatter position lies on the ray from the centre
   * through the photo, between 25 and 40 units beyond it; the lift lies in
   * [-5, 5).
   */
  lemma ScatterGeometry(m: MathLib, startTheta: real, index: nat, source: PhotoSource, d: PlacementDraw)
    requires ValidMath(m) && ValidDraw(d)
    ensures var p := Place(m, startTheta, index, source, d);
      var offset := Vec3(p.scatterPosition.x - p.position.x,
                         p.scatterPosition.y - ScatterLift(d) - p.position.y,
                         p.scatterPosition.z - p.position.z);
      && offset == Scale(Normalize(m, p.position), ScatterDistance(d))
      && NormSq(Normalize(m, p.position)) == 1.0
      && 25.0 <= ScatterDistance(d) < 40.0
      && -5.0 <= ScatterLift(d) < 5.0
  {
    var p := Place(m, startTheta, index, source, d);
    HeightAndRadiusRanges(d);
    var r := Radius(Height(d));
    PlacementGeometry(m, startTheta, index, source, d);
    assert HorizontalSq(p.position) == r * r;
    PositiveProduct(r, r);
    SquareNonNegative(p.position.y);
    assert NormSq(p.position) == HorizontalSq(p.position) + p.position.y * p.position.y;
    NormalizeUnit(m, p.position);
  }

  /** The application's photo list. */
  class PhotoStore {
    var photos: seq<UploadedPhoto>

    constructor()
      ensures photos == []
    {
      photos := [];
    }

    /** One pass of the `processPhotos` loop: the photo for the source at `index`. */
    static method PlacePhoto(m: MathLib, startTheta: real, index: nat, source: PhotoSource, d: PlacementDraw)
      returns (photo: UploadedPhoto)
      ensures photo == Place(m, startTheta, index, source, d)
    {
      var url := if source.UrlSource? then source.url else source.objectUrl;
      var y := (d.height - 0.5) * (TREE_HEIGHT - 6.0);
      var progress := (y + (TREE_HEIGHT / 2.0)) / TREE_HEIGHT;
      var rSurface := (1.0 - progress) * TREE_RADIUS;
      var r := rSurface + SURFACE_OFFSET;
      var theta := startTheta + (index as real * GOLDEN_ANGLE) + (d.jitter * 0.5);
      var pos := Vec3(r * m.cos(theta), y, r * m.sin(theta));
      var rotationVec := Vec3(m.cos(theta), 0.0, m.sin(theta));
      var scatterDir := Normalize(m, pos);
      var scatterDist := 25.0 + d.scatter * 15.0;
      var scatterPos := Add(pos, Scale(scatterDir, scatterDist));
      scatterPos := scatterPos.(y := scatterPos.y + (d.lift - 0.5) * 10.0);
      assert y == Height(d) && r == Radius(y) && url == UrlOf(source);
      assert theta == Theta(startTheta, index, d);
      assert scatterDist == ScatterDistance(d);
      photo := UploadedPhoto(d.id, url, pos, rotationVec, scatterPos);
      ghost var placed := Place(m, startTheta, index, source, d);
      assert pos == placed.position;
      assert rotationVec == placed.rotation;
      assert scatterPos == placed.scatterPosition;
    }

    /**
     * Places one photo per source, in source order, and appends them after the
     * photos already on the tree. `startDraw` is the draw for the upload's
     * starting angle and `draws[i]` the draws for source i.
     */
    method ProcessPhotos(m: MathLib, sources: seq<PhotoSource>, startDraw: real, draws: seq<PlacementDraw>)
      requires |draws| == |sources|
      modifies this
      ensures photos == old(photos) + PlaceAll(m, startDraw * PI * 2.0, sources, draws)
      ensures |photos| == |old(photos)| + |sources|
      ensures photos[..|old(photos)|] == old(photos)
    {
      var newPhotos: seq<UploadedPhoto> := [];
      var startTheta := startDraw * PI * 2.0;
      var index := 0;
      while index < |sources|
        invariant 0 <= index <= |sources|
        invariant newPhotos == PlaceAll(m, startTheta, sources[..index], draws[..index])
        invariant photos == old(photos)
      {
        var source, d := sources[index], draws[index];
        var photo := PlacePhoto(m, startTheta, index, source, d);
        newPhotos := newPhotos + [photo];
        assert sources[..index + 1] == sources[..index] + [source];
        assert draws[..index + 1] == draws[..index] + [d];
        index := index + 1;
      }
      assert sources[..index] == sources && draws[..index] == draws;
      photos := photos + newPhotos;
    }
  }
}
