# Interactive Christmas Tree — the interaction and animation rules, in Dafny

The Interactive Christmas Tree is a browser scene: a particle Christmas tree with ornaments, a
top star and a wall of uploaded photos. A webcam hand tracker drives it:

- an open left hand makes the tree explode outward;
- a pinch of the right hand focuses one photo;
- the right hand's horizontal position turns the exploded view.

This project models the per-frame rules behind that behaviour and proves what they promise.

- **Gestures** (`HandController`). A detector result becomes `isLeftOpen`, `isRightPinch` and
  `rightHandX`:
  - the handedness label is mirrored;
  - hands of zero scale are skipped;
  - the thumb-to-index / wrist-to-knuckle ratio is compared with 0.5 (open) and 0.35 (pinch).

  `OnResults` is the callback's loop as written, with `hypot` and a division. It is proved equal
  to `Gestures`, which states the same rule with squared distances.
- **Scene controller** (`Experience`):
  - the sticky focus: a pinch turns it on, and one 800 ms release timer turns it off. The timer
    is a deadline compared against an explicit clock;
  - the pick of the active photo;
  - the explosion target and speed;
  - group auto-rotation;
  - the three camera modes, the overview distance and yaw step, and the focus distance.
- **Beat follower** (`AudioService`). The eight bass bins are averaged into a level in [0, 1].
  The current beat follows it with attack 0.3 and decay 0.05, and `setup` runs once.
- **Photo wall** (`PhotoWall`):
  - the focus flag of each photo;
  - each photo mesh's explosion smoothing, its position between its tree place and its scatter
    place, and its orientation rule (face camera, tumble, or tree pose with sway).
- **Photo upload** (`App`). `processPhotos` places each photo on the cone at a golden-angle step
  and appends the new photos to the list.
- **Top star** (`TopStar`). Its outline has ten vertices on two circles. Each frame it rises and
  tilts with the explosion and fades while a photo is focused.
- **Particle layers** (`TreeParticles`). Six flat buffers per attribute set hold the particles:
  18000 foliage particles, then 3000 dust and 2000 ribbon particles through one running index.
- **Ornaments** (`Ornaments`):
  - 400 boxes and 600 spheres, each with an instance transform, a colour from its kind's table
    and a scatter position out along its own direction;
  - matrix i is installed in instance slot i.
- **Layer smoothing** (`Fade`). This is the frame rule the particle layers and the ornaments
  share: explosion at rate 3 and opacity at rate 4, written identically into both materials.

Shared modules:

- `Smoothing`: the unclamped `lerp` and its no-overshoot facts;
- `Geometry`: vectors, plus a `MathLib` value carrying `cos`, `sin`, `sqrt`, `pow` and `acos`
  with only the facts the proofs need;
- `Cone`: the cone's height and radius rule;
- `Buffers`: three-component slots in flat buffers;
- `Constants`, `Types` and `Wrappers`.

Inputs the program gets from outside are parameters:

- every `Math.random()` draw, as a record of reals in [0, 1) in the order the source draws them;
- the clock and the frame time;
- the viewport width and the camera position;
- the analyser's spectrum;
- the detector's results.

JavaScript numbers are modelled as `real`.

## Model

| member | source | states |
|---|---|---|
| HandController.Step | components/HandController.tsx:82-107 | one hand raises `isLeftOpen` iff it is a non-degenerate user-left hand with ratio above 0.5, raises `isRightPinch` iff it is a non-degenerate user-right hand with ratio below 0.35, and sets `rightHandX` to (knuckle x − 0.5)·2 exactly for non-degenerate user-right hands; flags are never lowered |
| HandController.HandsOf | components/HandController.tsx:74-87 | one hand per detected landmark list, in detector order, with the label of the same index |
| HandController.DegenerateHandIgnored | components/HandController.tsx:91-92 | a hand whose wrist-to-knuckle distance is 0 changes none of the three outputs, wherever it sits in the list |
| HandController.AccumulateAppend | components/HandController.tsx:74-108 | running the loop over a + b is running it over a and then over b |
| HandController.LeftOpenIffSomeOpenLeftHand | components/HandController.tsx:98-100 | `isLeftOpen` holds iff some non-degenerate user-left hand has ratio above 0.5 |
| HandController.RightPinchIffSomePinchingRightHand | components/HandController.tsx:103-105 | `isRightPinch` holds iff some non-degenerate user-right hand has ratio below 0.35 |
| HandController.RightHandXFromLastRightHand | components/HandController.tsx:106 | `rightHandX` comes from the last non-degenerate user-right hand in detector order |
| HandController.RightHandXZeroWithoutRightHand | components/HandController.tsx:37-39 | without a non-degenerate user-right hand `rightHandX` keeps its initial 0 |
| HandController.RightHandXInRange | components/HandController.tsx:106 | there is no clamp, but knuckle x in [0, 1] gives `rightHandX` in [-1, 1] |
| HandController.DistSqScale | components/HandController.tsx:89 | scaling both points by k scales the squared distance by k² |
| HandController.HandScaleInvariant | components/HandController.tsx:89-95 | scaling a hand's landmarks by k > 0 keeps its degeneracy, its open test and its pinch test |
| HandController.ScaledHandDistances | components/HandController.tsx:91-94 | both squared distances of a scaled hand are scaled by k² |
| HandController.ThresholdScaled | components/HandController.tsx:95-105 | the ratio comparisons are unchanged when both distances are scaled by the same positive factor |
| HandController.FlagsScaleInvariant | components/HandController.tsx:89-105 | scaling every hand by the same k > 0 leaves both flags of the gesture unchanged |
| HandController.RatioStepAgrees | components/HandController.tsx:89-107 | the hypot-and-division test as written and the squared-distance test agree on every hand |
| HandController.OnResults | components/HandController.tsx:73-115 | the callback's loop emits exactly `Gestures(results)`; when either result array is missing it emits `{false, false, 0}` |
| Experience.OnRaw | components/Experience.tsx:37-53 | raw focus turns sticky on and cancels a pending release; raw off with sticky on and nothing pending schedules exactly one release at now + 800; raw off with a release pending, or with sticky off, changes nothing |
| Experience.OnClock | components/Experience.tsx:47-50 | a tick changes sticky only by dropping it, and only when a pending deadline has been reached |
| Experience.RunAppend | components/Experience.tsx:37-53 | processing a + b is processing a and then b |
| Experience.RunConsistent | components/Experience.tsx:37-53 | a release is pending only while sticky is on, after any sequence of updates and ticks |
| Experience.StickyDropsOnlyAtDeadline | components/Experience.tsx:47-50 | sticky focus falls only through a clock tick at or past a pending deadline |
| Experience.PendingReleaseUnchangedWhileQuiet | components/Experience.tsx:44-51 | further raw-off updates before the deadline neither reschedule nor extend the pending release |
| Experience.ReleaseAtDeadline | components/Experience.tsx:47-50 | a quiet window ending with a tick at the deadline releases focus exactly then |
| Experience.StickyBeforeBound | components/Experience.tsx:37-53 | starting sticky, with any pending release at or after a bound, every gesture update (pinching or not) at most 800 ms before the bound and every tick before it, sticky focus still holds after the window |
| Experience.NoPhotosNoFocus | components/Experience.tsx:32 | with no photos the raw focus never holds and sticky focus never turns on |
| Experience.PickIndex | components/Experience.tsx:59 | `floor(rnd · n)` for rnd in [0, 1) is an index below n |
| Experience.SelectActive | components/Experience.tsx:55-65 | the active photo is cleared exactly when sticky is off, kept while sticky, and chosen from the list when sticky with none active and photos present |
| Experience.FocusedId | components/Experience.tsx:168 | `activePhoto?.id \|\| null` names a photo iff one is active with a non-empty id |
| Experience.ExplosionStepBounded | components/Experience.tsx:69-76 | toward 1 iff left hand open or sticky, at speed 4 when sticky and 2 otherwise; with delta·speed in [0, 1] the value stays between old value and target and in [0, 1] |
| Experience.GroupTurnsIffNotExploding | components/Experience.tsx:80-82 | the group turns, by exactly 0.6·delta, iff the scene is not exploding |
| Experience.ModePriority | components/Experience.tsx:85-152 | Focus iff sticky with an active photo; otherwise Overview iff the left hand is open; otherwise Idle; a mode other than Idle implies the scene explodes |
| Experience.OverviewDistanceApproaches | components/Experience.tsx:133-140 | the overview distance moves toward 60 without passing it |
| Experience.YawStepBounded | components/Experience.tsx:137 | a steering value in [-1, 1] turns the camera by at most 2·delta, and 0 turns it not at all |
| Experience.FocusDistanceByWidth | components/Experience.tsx:105-106 | the focus distance is 12 exactly below width 768 and 6 otherwise |
| Experience.FocusCameraOutpacesExplosion | components/Experience.tsx:111-124 | the focus camera rate 12 exceeds the explosion speeds 4 and 2; one camera step stays between camera and target, and from equal gaps it leaves strictly less of its gap than the focused explosion step leaves of its own |
| Experience.IdleCameraReturns | components/Experience.tsx:147 | each idle frame moves the camera toward its starting position at rate 1.5 without passing it |
| Experience.Scene.constructor | components/Experience.tsx:26-35 | unfocused, no active photo, explosion 0 |
| Experience.Scene.RefreshActivePhoto | components/Experience.tsx:55-65 | the active-photo effect sets the photo to `SelectActive` and keeps focus consistent with it |
| Experience.Scene.OnGestureUpdate | components/Experience.tsx:32-65 | a new gesture runs the sticky-focus effect and then the active-photo effect |
| Experience.Scene.OnClockTick | components/Experience.tsx:47-65 | a tick fires a due release and then runs the active-photo effect |
| Experience.Scene.Frame | components/Experience.tsx:67-152 | the frame's explosion step, group rotation and camera mode, where Focus holds iff a photo is active |
| AudioService.SumTo | services/audioService.ts:45-49 | the sum of the first n bytes is at most 255·n |
| AudioService.BassLevel | services/audioService.ts:45-52 | the bass level lies in [0, 1]; it is 0 iff the eight bins are 0 and 1 iff they are all 255 |
| AudioService.SumZeroIffAllZero | services/audioService.ts:47-49 | the byte sum is 0 iff every summed bin is 0 |
| AudioService.SumFullIffAllFull | services/audioService.ts:47-49 | the byte sum is 255·n iff every summed bin is 255 |
| AudioService.Follow | services/audioService.ts:56-62 | the new beat moves 0.3 of the gap when the level is above the beat and 0.05 otherwise, never passes the level, and is unchanged iff the level equals the beat |
| AudioService.FollowStaysInUnit | services/audioService.ts:9-62 | a beat and a level in [0, 1] give a new beat in [0, 1] |
| AudioService.PowerInUnit | services/audioService.ts:56-62 | the per-call gap factor raised to n stays in (0, 1] |
| AudioService.AttackClosedForm | services/audioService.ts:56-58 | under a steady higher level the gap after n calls is the first gap times 0.7ⁿ, so the beat stays below the level |
| AudioService.DecayClosedForm | services/audioService.ts:59-61 | under a steady lower level the excess after n calls is the first excess times 0.95ⁿ, so the beat never falls below the level |
| AudioService.SteadyLevelMonotone | services/audioService.ts:56-62 | each further call under a steady level moves the beat toward the level without passing it |
| AudioService.FollowNSplit | services/audioService.ts:56-62 | n + 1 calls are n calls followed by one |
| AudioService.AudioController.constructor | services/audioService.ts:1-14 | not ready, no context, beat 0 |
| AudioService.AudioController.Setup | services/audioService.ts:16-31 | the first call creates the 256-bin buffer and sets ready; a second call changes nothing |
| AudioService.AudioController.GetBeat | services/audioService.ts:39-65 | before setup it returns 0 and changes nothing; afterwards it reads the spectrum into the buffer, stores `Follow(old beat, BassLevel(spectrum))` and returns it |
| PhotoWall.MeshesOf | components/PhotoWall.tsx:16-22 | one mesh per photo in list order, focused iff its id equals the focused id |
| PhotoWall.AtMostOneFocused | components/PhotoWall.tsx:16-22 | with unique ids at most one mesh is focused, and none without a focused id |
| PhotoWall.ExplosionStepBounded | components/PhotoWall.tsx:52-55 | toward 1 iff exploding, at speed 4 when focused and 2 otherwise; the value stays in [0, 1] and never passes its target |
| PhotoWall.FocusedMeshInSync | components/PhotoWall.tsx:50-54 | a mesh focused exactly in the frames where the scene holds focus keeps the scene's explosion value frame after frame |
| PhotoWall.SwayBounded | components/PhotoWall.tsx:74 | the sway angle is at most 0.05 in magnitude |
| PhotoWall.OrientationRules | components/PhotoWall.tsx:62-76 | focused meshes face the camera; otherwise above 0.01 they spin by 0.5·delta about y and 0.2·delta about z; otherwise the base pose plus a sway of at most 0.05 |
| PhotoWall.PhotoMesh.constructor | components/PhotoWall.tsx:28-30 | a new mesh has explosion 0 and no rotation |
| PhotoWall.PhotoMesh.Frame | components/PhotoWall.tsx:49-78 | explosion step, position `lerpVectors(position, scatterPosition, explosion)` and the orientation rule |
| Geometry.LerpVectors | components/PhotoWall.tsx:59 | the interpolation is the structural position at 0 and the scatter position at 1 |
| Geometry.LerpVectorsBetween | components/PhotoWall.tsx:59-60 | for a factor in [0, 1] every coordinate lies between the two positions |
| App.PlaceAll | App.tsx:93-133 | one photo per source, in source order |
| App.HeightAndRadiusRanges | App.tsx:99-106 | height in [-12, 12), progress in [0.1, 0.9), radius in (1.8, 11.4] |
| App.GoldenAngleSpacing | App.tsx:90-109 | consecutive base angles differ by exactly 2.39996 and the jitter lies in [0, 0.5) |
| App.PlacementGeometry | App.tsx:95-118 | the photo sits at its height at the radius for that height from the axis; its facing vector is horizontal and of unit length; its url is the string source verbatim |
| App.OnCircle | App.tsx:111-115 | a point r·cos θ, y, r·sin θ is at horizontal distance r from the axis |
| App.ScatterGeometry | App.tsx:120-124 | before the lift the scatter position is the photo's position plus its unit direction times a distance in [25, 40); the lift lies in [-5, 5) |
| App.PhotoStore.constructor | App.tsx:86-87 | the photo list starts empty |
| App.PhotoStore.PlacePhoto | App.tsx:94-132 | the loop body builds exactly `Place` for the source at its index |
| App.PhotoStore.ProcessPhotos | App.tsx:86-135 | the list becomes the old list followed by one placed photo per source in order; old photos are unchanged |
| Cone.ConeRanges | components/TreeParticles.tsx:54-57 | a height draw gives y in [-15, 15) whose progress is the draw, and a surface radius in (0, 12] |
| Cone.SurfaceRadiusShrinks | components/Ornaments.tsx:37-39 | the cone narrows strictly with height |
| TopStar.ExplosionStepBounded | components/TopStar.tsx:40-42 | toward 1 iff exploding at rate 2·delta; stays in [0, 1] without passing the target |
| TopStar.PoseRules | components/TopStar.tsx:47-56 | rest height 16.5; above 0.01 the star is at 16.5 + 10·explosion tilted 0.5·explosion; otherwise at 16.5 upright with no z rotation |
| TopStar.Vertices | components/TopStar.tsx:17-24 | the first n commands are the vertex commands in order |
| TopStar.VertexOnCircle | components/TopStar.tsx:18-21 | vertex i lies on the circle of its radius |
| TopStar.OutlineShape | components/TopStar.tsx:11-27 | a moveTo, nine lineTo and a close; vertices alternate between radius 1.2 (even) and 0.5 (odd), a tenth of a turn apart |
| TopStar.Star.constructor | components/TopStar.tsx:6-68 | the star starts at rest at height 16.5, opaque |
| TopStar.Star.BuildStarShape | components/TopStar.tsx:11-27 | the loop builds exactly the outline |
| TopStar.Star.Frame | components/TopStar.tsx:38-65 | explosion step, pose rule, opacity toward 0.05 or 1 at rate 4, transparent set |
| Fade.FadeStepsBounded | components/TreeParticles.tsx:150-156 | explosion stays in [0, 1] and opacity in [0.05, 1], each moving toward its target without passing it |
| Fade.Layers.constructor | components/TreeParticles.tsx:26-34 | explosion 0, opacity 1, both materials with the initial uniforms |
| Fade.Layers.Frame | components/Ornaments.tsx:118-137 | explosion toward 1 or 0 at rate 3, opacity toward 0.05 or 1 at rate 4, both materials receiving the same time, explosion and opacity (the same rule as components/TreeParticles.tsx:147-171) |
| Buffers.WriteTriple | components/Ornaments.tsx:82-84 | a slot write stores the triple at entries 3i..3i+2 and changes nothing else |
| Buffers.StoreTriple | components/Ornaments.tsx:93-95 | the in-place write of one slot is `WriteTriple` on the buffer |
| Buffers.WriteTripleKeepsOthers | components/Ornaments.tsx:82-95 | a slot write keeps every other slot's triple |
| Buffers.WriteTripleNext | components/Ornaments.tsx:51-96 | writing the next slot after a stored run extends the run |
| TreeParticles.FoliageColorTable | components/TreeParticles.tsx:73-76 | lime above 0.95, emerald in (0.8, 0.95], deep green up to 0.8 |
| TreeParticles.SphericalRadius | components/TreeParticles.tsx:65-70 | the spherical scatter point is at distance sr from the centre |
| TreeParticles.ScaledBelow | components/TreeParticles.tsx:56-57 | the biased radius is non-negative and strictly below the surface radius |
| TreeParticles.FoliageInCone | components/TreeParticles.tsx:54-62 | y in [-15, 15), at horizontal distance r from the axis with 0 ≤ r below the cone radius at y |
| TreeParticles.FoliageScatterShell | components/TreeParticles.tsx:65-70 | the scatter point lies on a sphere of radius in [40, 80) |
| TreeParticles.FoliageAttributes | components/TreeParticles.tsx:72-84 | type 0, size in [0.5, 1.3), offset in [0, 10), colour from the table |
| TreeParticles.DustRanges | components/TreeParticles.tsx:94-114 | dust at radius 5 to 25 and height in [-30, 30); scatter is the position times one factor in [4, 6); type 1, size in [0.05, 0.25), offset in [0, 10) |
| TreeParticles.RibbonRanges | components/TreeParticles.tsx:123-139 | structural position 0, scatter on the ring of radius 60 at height in [-30, 30), type 2, size in [0.3, 0.8), offset i/2000·30 in [0, 30) and strictly increasing |
| TreeParticles.WriteParticle | components/TreeParticles.tsx:60-84 | writing a particle's twelve entries stores it at its slot and changes no other slot |
| TreeParticles.WriteParticleKeepsOthers | components/TreeParticles.tsx:60-84 | a particle stored at another slot stays stored |
| TreeParticles.WriteParticleKeepsSlot | components/TreeParticles.tsx:98-114 | every other slot keeps its values |
| TreeParticles.WriteKeepsPrefix | components/TreeParticles.tsx:88-142 | slots below the start of a fill keep their values through it |
| TreeParticles.WriteNext | components/TreeParticles.tsx:88-142 | the next write extends the stored run and keeps the slots below its start |
| TreeParticles.SameSlotHolds | components/TreeParticles.tsx:120-142 | the dust stored before the ribbon loop is still stored after it |
| TreeParticles.Attributes.constructor | components/TreeParticles.tsx:38-45 | six zeroed buffers of lengths 3·count, 3·count, 3·count, count, count, count |
| TreeParticles.Attributes.Put | components/TreeParticles.tsx:60-84 | the in-place write of one particle is `WriteParticle` on the snapshot |
| TreeParticles.Attributes.PutNext | components/TreeParticles.tsx:91-117 | one write extends the run and keeps the earlier slots |
| TreeParticles.FoliageParticle | components/TreeParticles.tsx:52-84 | the loop body's values are exactly `Foliage` of the draws |
| TreeParticles.DustParticle | components/TreeParticles.tsx:92-114 | the loop body's values are exactly `Dust` of the draws |
| TreeParticles.RibbonParticle | components/TreeParticles.tsx:121-139 | the loop body's values are exactly `Ribbon` of the index and draws |
| TreeParticles.FillFoliage | components/TreeParticles.tsx:51-85 | foliage particle i is stored at tree slot i |
| TreeParticles.FillDust | components/TreeParticles.tsx:88-117 | dust particle i is stored at slot start + i, the index ends at start + 3000, earlier slots are kept |
| TreeParticles.FillRibbon | components/TreeParticles.tsx:119-142 | ribbon particle i is stored at slot start + i, earlier slots are kept |
| TreeParticles.NewTreeAttributes | components/TreeParticles.tsx:47-85 | an 18000-particle set with foliage particle i at slot i |
| TreeParticles.NewEffectAttributes | components/TreeParticles.tsx:48-142 | a 5000-particle set with dust at slots [0, 3000) and ribbon at [3000, 5000), without overlap |
| TreeParticles.GenerateAttributes | components/TreeParticles.tsx:36-145 | both attribute sets with their lengths and every particle at its slot |
| Ornaments.PositionGeometry | components/Ornaments.tsx:35-53 | y in [-15, 15), at horizontal distance (1 − progress)·12 + offset from the axis, offset 0.2 for boxes and 0 for spheres |
| Ornaments.ScaleRanges | components/Ornaments.tsx:60-63 | a uniform scale, boxes in [0.5, 1), spheres in [0.3, 0.7) |
| Ornaments.ColorTables | components/Ornaments.tsx:69-81 | box: red below 0.5, gold below 0.8, else blue; sphere: gold below 0.4, red below 0.7, white below 0.9, else emerald |
| Ornaments.ScatterGeometry | components/Ornaments.tsx:86-91 | before the lift the scatter is the unit direction times 30 + u·m (m 30 for boxes, 45 for spheres); the lift lies in [-20, 20) |
| Ornaments.OrnamentData.constructor | components/Ornaments.tsx:46-49 | two zeroed buffers of 3·count entries and no matrices |
| Ornaments.OrnamentData.PutInstance | components/Ornaments.tsx:82-95 | instance i's colour and scatter go to entries 3i..3i+2 only |
| Ornaments.PlaceInstance | components/Ornaments.tsx:52-91 | the loop body's transform, colour and scatter are exactly `Transform`, `OrnamentColor` and `Scatter` |
| Ornaments.AppendInstance | components/Ornaments.tsx:52-95 | one pass pushes the next matrix and extends both stored runs |
| Ornaments.GenerateData | components/Ornaments.tsx:45-99 | exactly count matrices, matrix i the transform of draw i, and instance i's colour and scatter at entries 3i..3i+2 |
| Ornaments.GenerateBoth | components/Ornaments.tsx:101-104 | fresh data for 400 boxes and 600 spheres; each kind has matrix i the transform of draw i, and instance i's colour and scatter at entries 3i..3i+2 |
| Ornaments.InstancedMesh.constructor | components/Ornaments.tsx:140-150 | every instance slot holds the identity transform |
| Ornaments.InstancedMesh.InstallMatrices | components/Ornaments.tsx:109-110 | matrix i is installed at slot i for every i, the rest unchanged, and the buffer is flagged for upload |
| Ornaments.InstallAll | components/Ornaments.tsx:107-116 | each kind's mesh holds exactly its matrices, both flagged |
| Smoothing.LerpNoOvershoot | components/TopStar.tsx:41 | one unclamped lerp step with factor in [0, 1] lands between the value and the target, no farther from the target |
| Smoothing.LerpKeepsInterval | components/PhotoWall.tsx:54 | a lerp step between two points of an interval stays in it |
| Smoothing.ApproachBounded | components/TreeParticles.tsx:152-156 | a rate-times-delta step stays in the interval of value and target and moves toward the target |
| Smoothing.SettleNoOvershoot | components/Experience.tsx:76 | any number of frames toward a fixed target never pass it or move away from it |
| Smoothing.SettleRisesMonotonically | components/PhotoWall.tsx:54 | from below, a fixed target is approached monotonically |

Proof helpers used by the lemmas above, which model no source line of their own:
`HandController.ZeroScaled`, `HandController.DistSqNonNegative`, `HandController.ScaleHands`,
`TreeParticles.SameSlotTransitive`, `AudioService.Associate` and `Experience.RemainingGap`.

## Left out

- Browser and device I/O is left out: MediaPipe and camera start-up, the debug canvas, the Web
  Audio graph, `resume`, playback, file inputs, fullscreen and all markup.
- The GLSL shaders are left out. So is the `uSize` uniform, which is created as 1.0 and never
  written.
- 3-D camera geometry is left out: `normalize`, `lookAt`, quaternion `slerp`, `applyEuler` and
  `applyAxisAngle`. The focus and idle camera targets are 3-D and are also left out. The model keeps
  the mode, the overview distance and yaw rules, and the focus and idle camera rates applied to
  one coordinate (`FocusCameraAxis`, `IdleCameraAxis`).
- IEEE-754 doubles and `Float32Array` rounding are not modelled. Values are reals.
- `Math.random()` is not modelled. Each draw is a parameter in [0, 1).
- Trigonometry, `sqrt`, `pow` and `acos` are functions passed in. Only the unit circle, the
  square root and the range of `pow` on [0, 1) are known of them.
- React scheduling is not modelled, nor `setTimeout` as a real timer, nor asynchronous detector
  callbacks. They are explicit update and tick calls with a logical clock.
- Missing React refs (`meshRef.current`, material refs) are assumed present.
- `Ornaments.InstanceTransform`: matrix composition (`updateMatrix`, the quaternion) is kept as the
  (position, Euler rotation, scale) triple it is composed from.
- `TreeParticles.DustParticle`: the dust scatter scales the position value rather than reading
  the three position entries back from the buffer. These are equal over reals and differ only by
  Float32 rounding.
- `PhotoWall.PhotoMesh.Frame`: `parseFloat(photo.id)` is the parameter `idPhase`. Its NaN for
  non-numeric ids is not modelled.
- `App.PlaceAll`: the photo id (`Math.random().toString(36)`) is a draw, and
  `URL.createObjectURL` is the file source's `objectUrl`.
- `HandController.OnResults`: the detector's output shape is assumed (`WellFormed`). Every
  detected hand has a handedness entry and more than nine landmarks, as MediaPipe supplies 21.
  The path where the callback throws on a shorter result and emits no update is not modelled.
- The audio controller's `lastTime` field is never used and is not modelled.
- Behaviour of the code that the model keeps as written:
  - `rightHandX` is not clamped to [-1, 1] (components/HandController.tsx:106). `HandController.RightHandXInRange` proves the range
    only for knuckles inside the image.
  - `rightHandX` is set by every non-degenerate right hand, whether or not it pinches.
  - Photo and ornament scatter directions run from the scene centre through the object, with y
    included, not horizontally away from the tree's axis.
