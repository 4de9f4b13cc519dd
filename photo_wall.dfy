/**
 * The photo wall: one mesh per uploaded photo, at most one of them focused,
 * and each mesh's per-frame update of its explosion value, its position between
 * the tree and the scattered cloud, and its orientation.
 */
module PhotoWall {
  import opened Wrappers
  import opened Smoothing
  import opened Geometry
  import opened Types
  import Experience

  /** The properties one photo mesh is rendered with. */
  datatype MeshProps = MeshProps(photo: UploadedPhoto, isExploding: bool, isFocused: bool)

  /** `photos.map(...)`: a photo is focused when its id equals the focused id (never when that is null). */
  function MeshesOf(photos: seq<UploadedPhoto>, isExploding: bool, focusedId: Option<string>): (meshes: seq<MeshProps>)
    ensures |meshes| == |photos|
    ensures forall i :: 0 <= i < |photos| ==>
      meshes[i].photo == photos[i] && meshes[i].isExploding == isExploding
      && (meshes[i].isFocused <==> focusedId == Some(photos[i].id))
  {
    seq(|photos|, i requires 0 <= i < |photos| =>
      MeshProps(photos[i], isExploding, focusedId.Some? && photos[i].id == focusedId.value))
  }

  predicate UniqueIds(photos: seq<UploadedPhoto>)
  {
    forall i, j :: 0 <= i < j < |photos| ==> photos[i].id != photos[j].id
  }

  /** With unique ids at most one mesh is focused, and none when no id is focused. */
  lemma AtMostOneFocused(photos: seq<UploadedPhoto>, isExploding: bool, focusedId: Option<string>, i: nat, j: nat)
    requires UniqueIds(photos)
    requires i < |photos| && j < |photos|
    requires MeshesOf(photos, isExploding, focusedId)[i].isFocused
    requires MeshesOf(photos, isExploding, focusedId)[j].isFocused
    ensures i == j && focusedId.Some?
  {
  }

  /** The mesh's explosion smoothing: toward 1 when exploding, 0 otherwise; speed 4 when focused, 2 otherwise. */
  function ExplosionStep(current: real, isExploding: bool, isFocused: bool, delta: real): real
  {
    Approach(current, if isExploding then 1.0 else 0.0, if isFocused then 4.0 else 2.0, delta)
  }

  /** With a frame factor in [0, 1] the mesh's explosion value stays in [0, 1] and never passes its target. */
  lemma ExplosionStepBounded(current: real, isExploding: bool, isFocused: bool, delta: real)
    requires 0.0 <= delta * (if isFocused then 4.0 else 2.0) <= 1.0
    requires 0.0 <= current <= 1.0
    ensures 0.0 <= ExplosionStep(current, isExploding, isFocused, delta) <= 1.0
    ensures Between(ExplosionStep(current, isExploding, isFocused, delta), current, if isExploding then 1.0 else 0.0)
  {
    var t := delta * (if isFocused then 4.0 else 2.0);
    LerpNoOvershoot(current, if isExploding then 1.0 else 0.0, t);
    LerpKeepsInterval(current, if isExploding then 1.0 else 0.0, t, 0.0, 1.0);
  }

  /** One frame's inputs of the scene: the left-hand flag, sticky focus and the frame time. */
  datatype SceneFrame = SceneFrame(isLeftOpen: bool, sticky: bool, delta: real)

  /** The scene's explosion value after a run of frames. */
  function SceneExplosion(current: real, frames: seq<SceneFrame>): real
    decreases |frames|
  {
    if |frames| == 0 then current
    else
      var f := frames[0];
      SceneExplosion(Experience.ExplosionStep(current, f.isLeftOpen, f.sticky, f.delta), frames[1..])
  }

  /** A mesh's explosion value after the same run, given whether it was focused in each frame. */
  function MeshExplosion(current: real, frames: seq<SceneFrame>, focused: seq<bool>): real
    requires |focused| == |frames|
    decreases |frames|
  {
    if |frames| == 0 then current
    else
      var f := frames[0];
      MeshExplosion(
        ExplosionStep(current, Experience.ShouldExplode(f.isLeftOpen, f.sticky), focused[0], f.delta),
        frames[1..], focused[1..])
  }

  /**
   * The speed sync the camera relies on: a mesh that is focused exactly in the
   * frames where the scene holds focus keeps the same explosion value as the
   * scene, so the camera's estimate of the focused photo's position is exact.
   */
  lemma {:induction false} FocusedMeshInSync(current: real, frames: seq<SceneFrame>, focused: seq<bool>)
    requires |focused| == |frames|
    requires forall i :: 0 <= i < |frames| ==> focused[i] == frames[i].sticky
    ensures MeshExplosion(current, frames, focused) == SceneExplosion(current, frames)
    decreases |frames|
  {
    if |frames| > 0 {
      var f := frames[0];
      assert ExplosionStep(current, Experience.ShouldExplode(f.isLeftOpen, f.sticky), focused[0], f.delta)
          == Experience.ExplosionStep(current, f.isLeftOpen, f.sticky, f.delta);
      assert forall i :: 0 <= i < |frames[1..]| ==> focused[1..][i] == frames[1..][i].sticky;
      FocusedMeshInSync(
        Experience.ExplosionStep(current, f.isLeftOpen, f.sticky, f.delta), frames[1..], focused[1..]);
    }
  }

  /** What the mesh's orientation was last set from; a new mesh is unrotated. */
  datatype Anchor = Unrotated | FacingCamera(camera: Vec3) | BasePose

  /** The anchor plus the Euler offsets added on top of it. */
  datatype Orientation = Orientation(anchor: Anchor, spinY: real, spinZ: real)

  /** Explosion above which an unfocused mesh tumbles instead of keeping its tree pose. */
  const TUMBLE_THRESHOLD: real := 0.01

  /** The tree-form sway about the mesh's own z axis, phased by the numeric value of the photo's id. */
  function Sway(m: MathLib, elapsed: real, idPhase: real): real
  {
    m.sin(elapsed * 1.5 + idPhase) * 0.05
  }

  lemma SwayBounded(m: MathLib, elapsed: real, idPhase: real)
    requires ValidMath(m)
    ensures -0.05 <= Sway(m, elapsed, idPhase) <= 0.05
  {
    TrigBounded(m, elapsed * 1.5 + idPhase);
  }

  /** The orientation rule: face the camera when focused, else tumble while exploded, else the base pose with sway. */
  function NextOrientation(o: Orientation, isFocused: bool, explosion: real, delta: real, camera: Vec3, sway: real): Orientation
  {
    if isFocused then Orientation(FacingCamera(camera), 0.0, 0.0)
    else if explosion > TUMBLE_THRESHOLD then o.(spinY := o.spinY + delta * 0.5, spinZ := o.spinZ + delta * 0.2)
    else Orientation(BasePose, 0.0, sway)
  }

  /** The three orientation modes in priority order; the tree pose tilts by at most 0.05. */
  lemma OrientationRules(m: MathLib, o: Orientation, isFocused: bool, explosion: real, delta: real, camera: Vec3, elapsed: real, idPhase: real)
    requires ValidMath(m)
    ensures var r := NextOrientation(o, isFocused, explosion, delta, camera, Sway(m, elapsed, idPhase));
      && (isFocused ==> r == Orientation(FacingCamera(camera), 0.0, 0.0))
      && (!isFocused && explosion > TUMBLE_THRESHOLD ==>
            r.anchor == o.anchor && r.spinY - o.spinY == 0.5 * delta && r.spinZ - o.spinZ == 0.2 * delta)
      && (!isFocused && explosion <= TUMBLE_THRESHOLD ==>
            r.anchor == BasePose && r.spinY == 0.0 && -0.05 <= r.spinZ <= 0.05)
  {
    SwayBounded(m, elapsed, idPhase);
  }

  /** One photo mesh and the state its frame callback updates. */
  class PhotoMesh {
    const photo: UploadedPhoto
    var currentExplosion: real
    var position: Vec3
    var orientation: Orientation

    constructor(photo: UploadedPhoto)
      ensures this.photo == photo
      ensures currentExplosion == 0.0
      ensures position == Origin
      ensures orientation == Orientation(Unrotated, 0.0, 0.0)
    {
      this.photo := photo;
      currentExplosion := 0.0;
      position := Origin;
      orientation := Orientation(Unrotated, 0.0, 0.0);
    }

    /** The frame callback; `idPhase` is `parseFloat(photo.id)`. */
    method Frame(m: MathLib, isExploding: bool, isFocused: bool, delta: real, camera: Vec3, elapsed: real, idPhase: real)
      modifies this
      ensures currentExplosion == ExplosionStep(old(currentExplosion), isExploding, isFocused, delta)
      ensures position == LerpVectors(photo.position, photo.scatterPosition, currentExplosion)
      ensures orientation == NextOrientation(old(orientation), isFocused, currentExplosion, delta, camera, Sway(m, elapsed, idPhase))
    {
      var lerpSpeed := if isFocused then 4.0 else 2.0;
      var target := if isExploding then 1.0 else 0.0;
      currentExplosion := Lerp(currentExplosion, target, delta * lerpSpeed);
      var explosion := currentExplosion;
      position := LerpVectors(photo.position, photo.scatterPosition, explosion);
      if isFocused {
        orientation := Orientation(FacingCamera(camera), 0.0, 0.0);
      } else if explosion > TUMBLE_THRESHOLD {
        orientation := orientation.(spinY := orientation.spinY + delta * 0.5);
        orientation := orientation.(spinZ := orientation.spinZ + delta * 0.2);
      } else {
        var sway := m.sin(elapsed * 1.5 + idPhase) * 0.05;
        orientation := Orientation(BasePose, 0.0, sway);
      }
    }
  }
}
