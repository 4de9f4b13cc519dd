/**
 * The scene controller: the sticky-focus debouncer that holds focus for 800 ms
 * after the pinch is released, the choice of the photo to focus on, and the
 * per-frame explosion, group rotation and camera-mode rules.
 *
 * The release timer is a logical deadline: scheduling it records `now + 800`
 * and a `ClockTick(now)` event with `now` at or past that deadline fires it.
 */
module Experience {
  import opened Wrappers
  import opened Smoothing
  import opened Types

  /** Milliseconds the sticky focus outlives the pinch. */
  const RELEASE_DELAY: real := 800.0

  /** Raw focus: a right-hand pinch, and at least one photo to focus on. */
  predicate RawIsFocused(gestures: HandGestures, photoCount: nat)
  {
    gestures.isRightPinch && photoCount > 0
  }

  /** The sticky flag and the pending release timer, if any. */
  datatype FocusState = FocusState(sticky: bool, releaseAt: Option<real>)

  const Unfocused := FocusState(false, None)

  /** A release is only ever pending while focus is held. */
  predicate Consistent(s: FocusState)
  {
    s.releaseAt.Some? ==> s.sticky
  }

  /**
   * The sticky-focus effect, run after a gesture update. Raw focus engages
   * sticky focus and cancels a pending release; losing it while sticky with
   * nothing pending schedules exactly one release; otherwise nothing changes.
   */
  function OnRaw(s: FocusState, raw: bool, now: real): (r: FocusState)
    ensures r.sticky == (raw || s.sticky)
    ensures raw ==> r.releaseAt.None?
    ensures !raw && s.releaseAt.Some? ==> r == s
    ensures !raw && s.sticky && s.releaseAt.None? ==> r.releaseAt == Some(now + RELEASE_DELAY)
    ensures !raw && !s.sticky ==> r == s
    ensures Consistent(s) ==> Consistent(r)
  {
    if raw then FocusState(true, None)
    else if s.releaseAt.None? && s.sticky then FocusState(true, Some(now + RELEASE_DELAY))
    else s
  }

  /** The clock reaching `now`: a release whose deadline has passed fires and clears itself. */
  function OnClock(s: FocusState, now: real): (r: FocusState)
    ensures Consistent(s) ==> Consistent(r)
    ensures r.sticky != s.sticky ==> s.releaseAt.Some? && s.releaseAt.value <= now && !r.sticky
  {
    if s.releaseAt.Some? && s.releaseAt.value <= now then Unfocused else s
  }

  datatype FocusEvent =
    | GestureUpdate(gestures: HandGestures, photoCount: nat, now: real)
    | ClockTick(now: real)

  function Next(s: FocusState, e: FocusEvent): FocusState
  {
    match e
    case GestureUpdate(g, n, now) => OnRaw(s, RawIsFocused(g, n), now)
    case ClockTick(now) => OnClock(s, now)
  }

  function Run(s: FocusState, events: seq<FocusEvent>): FocusState
    decreases |events|
  {
    if |events| == 0 then s else Run(Next(s, events[0]), events[1..])
  }

  /** Every gesture update in the sequence has the raw focus off. */
  predicate Quiet(events: seq<FocusEvent>)
  {
    forall i :: 0 <= i < |events| && events[i].GestureUpdate? ==>
      !RawIsFocused(events[i].gestures, events[i].photoCount)
  }

  /** Every clock tick in the sequence is strictly before `t`. */
  predicate TicksBefore(events: seq<FocusEvent>, t: real)
  {
    forall i :: 0 <= i < |events| && events[i].ClockTick? ==> events[i].now < t
  }

  lemma {:induction false} RunAppend(s: FocusState, a: seq<FocusEvent>, b: seq<FocusEvent>)
    ensures Run(s, a + b) == Run(Run(s, a), b)
    decreases |a|
  {
    if |a| > 0 {
      assert (a + b)[0] == a[0];
      assert (a + b)[1..] == a[1..] + b;
      RunAppend(Next(s, a[0]), a[1..], b);
    } else {
      assert a + b == b;
    }
  }

  /** Consistency is kept by every run. */
  lemma {:induction false} RunConsistent(s: FocusState, events: seq<FocusEvent>)
    requires Consistent(s)
    ensures Consistent(Run(s, events))
    decreases |events|
  {
    if |events| > 0 {
      RunConsistent(Next(s, events[0]), events[1..]);
    }
  }

  /** Sticky focus falls only through a clock tick at or past a pending deadline. */
  lemma StickyDropsOnlyAtDeadline(s: FocusState, e: FocusEvent)
    requires s.sticky && !Next(s, e).sticky
    ensures e.ClockTick? && s.releaseAt.Some? && s.releaseAt.value <= e.now
  {
  }

  /** While the raw focus stays off and the clock has not reached the deadline, the pending release is neither rescheduled nor extended. */
  lemma {:induction false} PendingReleaseUnchangedWhileQuiet(s: FocusState, events: seq<FocusEvent>)
    requires s.sticky && s.releaseAt.Some?
    requires Quiet(events) && TicksBefore(events, s.releaseAt.value)
    ensures Run(s, events) == s
    decreases |events|
  {
    if |events| > 0 {
      assert Next(s, events[0]) == s;
      assert Quiet(events[1..]) by {
        forall i | 0 <= i < |events[1..]| && events[1..][i].GestureUpdate?
          ensures !RawIsFocused(events[1..][i].gestures, events[1..][i].photoCount)
        {
          assert events[1..][i] == events[i + 1];
        }
      }
      assert TicksBefore(events[1..], s.releaseAt.value) by {
        forall i | 0 <= i < |events[1..]| && events[1..][i].ClockTick?
          ensures events[1..][i].now < s.releaseAt.value
        {
          assert events[1..][i] == events[i + 1];
        }
      }
      PendingReleaseUnchangedWhileQuiet(s, events[1..]);
    }
  }

  /** A quiet window that ends with the clock at the deadline releases the focus exactly then. */
  lemma ReleaseAtDeadline(s: FocusState, events: seq<FocusEvent>, t: real)
    requires s.sticky && s.releaseAt.Some?
    requires Quiet(events) && TicksBefore(events, s.releaseAt.value)
    requires s.releaseAt.value <= t
    ensures Run(s, events) == s
    ensures Run(s, events + [ClockTick(t)]) == Unfocused
  {
    PendingReleaseUnchangedWhileQuiet(s, events);
    RunAppend(s, events, [ClockTick(t)]);
  }

  /**
   * Sticky focus is held throughout while no clock tick reaches `bound`, when
   * no deadline before `bound` is pending and no update comes earlier than
   * 800 ms before it. A pinch seen at time t0 keeps focus at least until
   * t0 + 800, however often the pinch flickers in between.
   */
  lemma {:induction false} StickyBeforeBound(s: FocusState, events: seq<FocusEvent>, bound: real)
    requires s.sticky
    requires s.releaseAt.Some? ==> s.releaseAt.value >= bound
    requires forall i :: 0 <= i < |events| && events[i].GestureUpdate? ==> events[i].now + RELEASE_DELAY >= bound
    requires TicksBefore(events, bound)
    ensures Run(s, events).sticky
    decreases |events|
  {
    if |events| > 0 {
      var s1 := Next(s, events[0]);
      assert s1.sticky;
      assert s1.releaseAt.Some? ==> s1.releaseAt.value >= bound;
      assert forall i :: 0 <= i < |events[1..]| ==> events[1..][i] == events[i + 1];
      StickyBeforeBound(s1, events[1..], bound);
    }
  }

  /** With no photos the raw focus never holds, so sticky focus never turns on. */
  lemma {:induction false} NoPhotosNoFocus(events: seq<FocusEvent>)
    requires forall i :: 0 <= i < |events| && events[i].GestureUpdate? ==> events[i].photoCount == 0
    ensures Run(Unfocused, events) == Unfocused
    decreases |events|
  {
    if |events| > 0 {
      assert Next(Unfocused, events[0]) == Unfocused;
      assert forall i :: 0 <= i < |events[1..]| ==> events[1..][i] == events[i + 1];
      NoPhotosNoFocus(events[1..]);
    }
  }

  /** `Math.floor(rnd * n)` for a draw rnd in [0, 1) is an index of a list of n > 0 elements. */
  function PickIndex(rnd: real, n: nat): (k: nat)
    requires 0.0 <= rnd < 1.0 && n > 0
    ensures k < n
  {
    var x := rnd * n as real;
    assert 0.0 <= x < n as real;
    x.Floor
  }

  /**
   * The active-photo effect: on entering focus with no active photo a photo is
   * picked at random; losing focus clears it; otherwise it is kept.
   */
  function SelectActive(sticky: bool, active: Option<UploadedPhoto>, photos: seq<UploadedPhoto>, rnd: real): (r: Option<UploadedPhoto>)
    requires 0.0 <= rnd < 1.0
    ensures r.None? <==> !sticky || (active.None? && |photos| == 0)
    ensures sticky && active.Some? ==> r == active
    ensures sticky && active.None? && |photos| > 0 ==> r.Some? && r.value in photos
    ensures r.Some? ==> sticky
  {
    if sticky && active.None? && |photos| > 0 then
      Some(photos[PickIndex(rnd, |photos|)])
    else if !sticky then
      None
    else
      active
  }

  /** `activePhoto?.id || null`: an empty id is falsy, so it names no photo. */
  function FocusedId(active: Option<UploadedPhoto>): (r: Option<string>)
    ensures r.Some? <==> active.Some? && active.value.id != ""
    ensures r.Some? ==> r.value == active.value.id
  {
    if active.Some? && active.value.id != "" then Some(active.value.id) else None
  }

  /** The scene explodes while the left hand is open or focus is held; every child receives this flag. */
  predicate ShouldExplode(isLeftOpen: bool, sticky: bool)
  {
    isLeftOpen || sticky
  }

  function ExplosionTarget(isLeftOpen: bool, sticky: bool): real
  {
    if ShouldExplode(isLeftOpen, sticky) then 1.0 else 0.0
  }

  /** Fast snap while focused, gentle return otherwise. */
  function ExplosionSpeed(sticky: bool): real
  {
    if sticky then 4.0 else 2.0
  }

  function ExplosionStep(current: real, isLeftOpen: bool, sticky: bool, delta: real): real
  {
    Approach(current, ExplosionTarget(isLeftOpen, sticky), ExplosionSpeed(sticky), delta)
  }

  /** With a frame factor in [0, 1] the camera's explosion value never passes its target and stays in [0, 1]. */
  lemma ExplosionStepBounded(current: real, isLeftOpen: bool, sticky: bool, delta: real)
    requires 0.0 <= delta * ExplosionSpeed(sticky) <= 1.0
    requires 0.0 <= current <= 1.0
    ensures Between(ExplosionStep(current, isLeftOpen, sticky, delta), current, ExplosionTarget(isLeftOpen, sticky))
    ensures 0.0 <= ExplosionStep(current, isLeftOpen, sticky, delta) <= 1.0
  {
    var t := ExplosionTarget(isLeftOpen, sticky);
    LerpNoOvershoot(current, t, delta * ExplosionSpeed(sticky));
    LerpKeepsInterval(current, t, delta * ExplosionSpeed(sticky), 0.0, 1.0);
  }

  /** Auto-rotation of the tree group, suspended while exploding. */
  const GROUP_SPIN_RATE: real := 0.6

  function GroupRotationStep(rotationY: real, exploding: bool, delta: real): real
  {
    if !exploding then rotationY + delta * GROUP_SPIN_RATE else rotationY
  }

  /** For a positive frame time the group turns exactly when the scene is not exploding. */
  lemma GroupTurnsIffNotExploding(rotationY: real, exploding: bool, delta: real)
    requires delta > 0.0
    ensures GroupRotationStep(rotationY, exploding, delta) != rotationY <==> !exploding
    ensures !exploding ==> GroupRotationStep(rotationY, exploding, delta) - rotationY == 0.6 * delta
  {
    assert delta * GROUP_SPIN_RATE > 0.0;
  }

  datatype CameraMode = Focus | Overview | Idle

  /** The camera state machine: focus on a photo, else the exploded overview, else the closed tree. */
  function ModeOf(sticky: bool, active: Option<UploadedPhoto>, isLeftOpen: bool): CameraMode
  {
    if sticky && active.Some? then Focus
    else if isLeftOpen then Overview
    else Idle
  }

  /** The priority of the three modes, and the fact that the camera leaves the closed tree only while the scene explodes. */
  lemma ModePriority(sticky: bool, active: Option<UploadedPhoto>, isLeftOpen: bool)
    ensures ModeOf(sticky, active, isLeftOpen) == Focus <==> sticky && active.Some?
    ensures ModeOf(sticky, active, isLeftOpen) == Overview <==> !(sticky && active.Some?) && isLeftOpen
    ensures ModeOf(sticky, active, isLeftOpen) == Idle <==> !(sticky && active.Some?) && !isLeftOpen
    ensures ModeOf(sticky, active, isLeftOpen) != Idle ==> ShouldExplode(isLeftOpen, sticky)
  {
  }

  /** Distance of the overview camera from the origin. */
  const OVERVIEW_DISTANCE: real := 60.0
  const OVERVIEW_RATE: real := 2.0

  /** One overview frame: the camera distance eases toward 60. */
  function OverviewDistance(currentDist: real, delta: real): real
  {
    Approach(currentDist, OVERVIEW_DISTANCE, OVERVIEW_RATE, delta)
  }

  /** With a frame factor in [0, 1] the overview distance moves toward 60 and never passes it. */
  lemma OverviewDistanceApproaches(currentDist: real, delta: real)
    requires 0.0 <= delta * OVERVIEW_RATE <= 1.0
    ensures Between(OverviewDistance(currentDist, delta), currentDist, OVERVIEW_DISTANCE)
    ensures Abs(OverviewDistance(currentDist, delta) - OVERVIEW_DISTANCE) <= Abs(currentDist - OVERVIEW_DISTANCE)
  {
    LerpNoOvershoot(currentDist, OVERVIEW_DISTANCE, delta * OVERVIEW_RATE);
  }

  /** The yaw the right hand applies to the overview camera in one frame. */
  function YawStep(rightHandX: real, delta: real): real
  {
    rightHandX * delta * 2.0
  }

  /** A steering value in [-1, 1] turns the camera by at most 2 radians per second. */
  lemma YawStepBounded(rightHandX: real, delta: real)
    requires -1.0 <= rightHandX <= 1.0 && delta >= 0.0
    ensures -2.0 * delta <= YawStep(rightHandX, delta) <= 2.0 * delta
    ensures rightHandX == 0.0 ==> YawStep(rightHandX, delta) == 0.0
  {
    var p := rightHandX * delta;
    assert -delta <= p <= delta by {
      assert p - delta == (rightHandX - 1.0) * delta;
      assert p + delta == (rightHandX + 1.0) * delta;
      NonPositiveProduct(rightHandX - 1.0, delta);
      NonNegativeProduct(rightHandX + 1.0, delta);
    }
  }

  /** How far in front of the photo the focus camera stands: farther on narrow screens. */
  function FocusDistance(width: real): real
  {
    if width < 768.0 then 12.0 else 6.0
  }

  /** Narrow screens (under 768 pixels) put the camera 12 units from the photo, wider ones 6. */
  lemma FocusDistanceByWidth(width: real)
    ensures FocusDistance(width) == 12.0 <==> width < 768.0
    ensures FocusDistance(width) == 6.0 <==> width >= 768.0
  {
  }

  /** Lerp rates of the camera in focus (position, orientation and controls target) and idle modes. */
  const FOCUS_CAMERA_RATE: real := 12.0
  const IDLE_CAMERA_RATE: real := 1.5

  /** One coordinate of the focus camera's move toward its spot in front of the photo. */
  function FocusCameraAxis(camera: real, target: real, delta: real): real
  {
    Approach(camera, target, FOCUS_CAMERA_RATE, delta)
  }

  /** One coordinate of the idle camera's return to its starting position. */
  function IdleCameraAxis(camera: real, home: real, delta: real): real
  {
    Approach(camera, home, IDLE_CAMERA_RATE, delta)
  }

  /** What is left of a gap after one frame at `rate`: the gap times 1 - delta * rate. */
  lemma RemainingGap(current: real, target: real, rate: real, delta: real)
    ensures target - Approach(current, target, rate, delta) == (target - current) * (1.0 - delta * rate)
  {
  }

  /**
   * The focus camera's rate 12 beats both explosion speeds. Along one coordinate,
   * a camera gap equal to the focused explosion value's gap to 1 is left strictly
   * smaller after one frame than the explosion's gap.
   */
  lemma FocusCameraOutpacesExplosion(camera: real, target: real, explosion: real, delta: real)
    requires 0.0 < delta && delta * FOCUS_CAMERA_RATE <= 1.0
    requires camera != target
    requires 1.0 - explosion == target - camera
    ensures FOCUS_CAMERA_RATE > ExplosionSpeed(true) > ExplosionSpeed(false)
    ensures Between(FocusCameraAxis(camera, target, delta), camera, target)
    ensures Abs(target - FocusCameraAxis(camera, target, delta)) < Abs(1.0 - ExplosionStep(explosion, false, true, delta))
  {
    var gap := target - camera;
    RemainingGap(camera, target, FOCUS_CAMERA_RATE, delta);
    RemainingGap(explosion, 1.0, ExplosionSpeed(true), delta);
    LerpNoOvershoot(camera, target, delta * FOCUS_CAMERA_RATE);
    var slow, fast := 1.0 - delta * ExplosionSpeed(true), 1.0 - delta * FOCUS_CAMERA_RATE;
    assert 0.0 <= fast < slow;
    assert target - FocusCameraAxis(camera, target, delta) == gap * fast;
    assert 1.0 - ExplosionStep(explosion, false, true, delta) == gap * slow;
    if gap > 0.0 {
      assert gap * fast < gap * slow;
    } else {
      assert (-gap) * fast < (-gap) * slow;
      assert gap * fast <= 0.0 && gap * slow < 0.0;
      assert Abs(gap * fast) == (-gap) * fast && Abs(gap * slow) == (-gap) * slow;
    }
  }

  /** The idle camera returns toward its starting position without passing it. */
  lemma IdleCameraReturns(camera: real, home: real, delta: real)
    requires 0.0 <= delta * IDLE_CAMERA_RATE <= 1.0
    ensures Between(IdleCameraAxis(camera, home, delta), camera, home)
    ensures Abs(IdleCameraAxis(camera, home, delta) - home) <= Abs(camera - home)
  {
    LerpNoOvershoot(camera, home, delta * IDLE_CAMERA_RATE);
  }

  /**
   * The scene controller's state. Photos, gestures, the clock and the random
   * draw are inputs of each call.
   */
  class Scene {
    var focus: FocusState
    var activePhoto: Option<UploadedPhoto>
    var explosion: real
    var groupRotationY: real

    /** Focus is consistent, and a photo is active only while focus is held. */
    ghost predicate Valid()
      reads this
    {
      Consistent(focus) && (activePhoto.Some? ==> focus.sticky)
    }

    constructor()
      ensures Valid()
      ensures focus == Unfocused && activePhoto == None
      ensures explosion == 0.0 && groupRotationY == 0.0
    {
      focus := Unfocused;
      activePhoto := None;
      explosion := 0.0;
      groupRotationY := 0.0;
    }

    /** The active-photo effect, run after every change of focus or photos. */
    method RefreshActivePhoto(photos: seq<UploadedPhoto>, rnd: real)
      requires 0.0 <= rnd < 1.0
      requires Consistent(focus)
      modifies this
      ensures Valid()
      ensures activePhoto == SelectActive(focus.sticky, old(activePhoto), photos, rnd)
      ensures focus == old(focus) && explosion == old(explosion) && groupRotationY == old(groupRotationY)
    {
      if focus.sticky && activePhoto.None? && |photos| > 0 {
        var k := PickIndex(rnd, |photos|);
        activePhoto := Some(photos[k]);
      } else if !focus.sticky {
        activePhoto := None;
      }
    }

    /** A new gesture or photo list: the sticky-focus effect, then the active-photo effect. */
    method OnGestureUpdate(gestures: HandGestures, photos: seq<UploadedPhoto>, now: real, rnd: real)
      requires Valid()
      requires 0.0 <= rnd < 1.0
      modifies this
      ensures Valid()
      ensures focus == Next(old(focus), GestureUpdate(gestures, |photos|, now))
      ensures activePhoto == SelectActive(focus.sticky, old(activePhoto), photos, rnd)
      ensures explosion == old(explosion) && groupRotationY == old(groupRotationY)
    {
      var rawIsFocused := gestures.isRightPinch && |photos| > 0;
      if rawIsFocused {
        if focus.releaseAt.Some? {
          focus := focus.(releaseAt := None);
        }
        focus := focus.(sticky := true);
      } else {
        if focus.releaseAt.None? && focus.sticky {
          focus := focus.(releaseAt := Some(now + RELEASE_DELAY));
        }
      }
      RefreshActivePhoto(photos, rnd);
    }

    /** The clock reaching `now`; a due release timer clears focus, then the active-photo effect runs. */
    method OnClockTick(photos: seq<UploadedPhoto>, now: real, rnd: real)
      requires Valid()
      requires 0.0 <= rnd < 1.0
      modifies this
      ensures Valid()
      ensures focus == Next(old(focus), ClockTick(now))
      ensures activePhoto == SelectActive(focus.sticky, old(activePhoto), photos, rnd)
      ensures explosion == old(explosion) && groupRotationY == old(groupRotationY)
    {
      if focus.releaseAt.Some? && focus.releaseAt.value <= now {
        focus := FocusState(false, None);
      }
      RefreshActivePhoto(photos, rnd);
    }

    /** One animation frame: explosion smoothing, group auto-rotation and the camera mode of the frame. */
    method Frame(gestures: HandGestures, delta: real) returns (mode: CameraMode)
      requires Valid()
      modifies this
      ensures Valid()
      ensures explosion == ExplosionStep(old(explosion), gestures.isLeftOpen, focus.sticky, delta)
      ensures groupRotationY == GroupRotationStep(old(groupRotationY), ShouldExplode(gestures.isLeftOpen, focus.sticky), delta)
      ensures mode == ModeOf(focus.sticky, activePhoto, gestures.isLeftOpen)
      ensures mode == Focus <==> activePhoto.Some?
      ensures focus == old(focus) && activePhoto == old(activePhoto)
    {
      var shouldExplode := gestures.isLeftOpen || focus.sticky;
      var targetExplosion := if shouldExplode then 1.0 else 0.0;
      var lerpSpeed := if focus.sticky then 4.0 else 2.0;
      explosion := Lerp(explosion, targetExplosion, delta * lerpSpeed);
      if !shouldExplode {
        groupRotationY := groupRotationY + delta * GROUP_SPIN_RATE;
      }
      if focus.sticky && activePhoto.Some? {
        mode := Focus;
      } else if gestures.isLeftOpen {
        mode := Overview;
      } else {
        mode := Idle;
      }
    }
  }
}
