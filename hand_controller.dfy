/**
 * The gesture logic of the hand tracker's result callback. Each detected hand
 * is assigned a side from its mirrored handedness label and classified by the
 * ratio of its thumb-to-index distance to its wrist-to-middle-knuckle
 * distance; the three outputs are accumulated over the hands in detector order.
 *
 * `Step` states the classification with squared distances, which is exact over
 * the reals; `OnResults` is the callback as written, with `hypot` and a
 * division, and is proved to compute the same gesture.
 */
module HandController {
  import opened Wrappers
  import opened Geometry
  import opened Smoothing
  import opened Types

  /** A hand landmark in normalised image coordinates (its depth is not used). */
  datatype Landmark = Landmark(x: real, y: real)

  /** Indices of the landmarks the classifier reads, in MediaPipe's 21-point hand model. */
  const WRIST: nat := 0
  const THUMB_TIP: nat := 4
  const INDEX_TIP: nat := 8
  const MIDDLE_MCP: nat := 9

  /** Ratio above which a user-left hand counts as open. */
  const OPEN_RATIO: real := 0.5
  /** Ratio below which a user-right hand counts as pinching. */
  const PINCH_RATIO: real := 0.35

  /** The two thresholds squared, for the comparison of squared distances. */
  const OPEN_RATIO_SQ: real := 0.25
  const PINCH_RATIO_SQ: real := 0.1225

  /** One detector result; either array may be missing. Handedness is given by its label. */
  datatype DetectorResults = DetectorResults(
    multiHandLandmarks: Option<seq<seq<Landmark>>>,
    multiHandedness: Option<seq<string>>)

  /** What the callback reads of one hand. */
  datatype Hand = Hand(
    rawLabel: string,
    wrist: Landmark,
    thumbTip: Landmark,
    indexTip: Landmark,
    middleMCP: Landmark)

  datatype Side = UserLeft | UserRight

  /** The selfie-view swap: the detector's "Left" is the user's right hand, any other label the user's left. */
  function LogicalSide(rawLabel: string): Side
  {
    if rawLabel == "Left" then UserRight else UserLeft
  }

  /** The callback reads `multiHandedness[i]` and landmarks up to index 9 for every detected hand. */
  predicate WellFormed(results: DetectorResults)
  {
    results.multiHandLandmarks.Some? && results.multiHandedness.Some? ==>
      && |results.multiHandedness.value| >= |results.multiHandLandmarks.value|
      && forall i :: 0 <= i < |results.multiHandLandmarks.value| ==>
           |results.multiHandLandmarks.value[i]| > MIDDLE_MCP
  }

  function HandAt(landmarks: seq<Landmark>, rawLabel: string): Hand
    requires |landmarks| > MIDDLE_MCP
  {
    Hand(rawLabel, landmarks[WRIST], landmarks[THUMB_TIP], landmarks[INDEX_TIP], landmarks[MIDDLE_MCP])
  }

  function HandsOf(all: seq<seq<Landmark>>, labels: seq<string>): (hands: seq<Hand>)
    requires |labels| >= |all|
    requires forall i :: 0 <= i < |all| ==> |all[i]| > MIDDLE_MCP
    ensures |hands| == |all|
  {
    seq(|all|, i requires 0 <= i < |all| => HandAt(all[i], labels[i]))
  }

  /** The square of `Math.hypot(p.x - q.x, p.y - q.y)`. */
  function DistSq(p: Landmark, q: Landmark): real
  {
    (p.x - q.x) * (p.x - q.x) + (p.y - q.y) * (p.y - q.y)
  }

  /** Squared hand scale: wrist to middle knuckle. */
  function ScaleSq(h: Hand): real
  {
    DistSq(h.wrist, h.middleMCP)
  }

  /** Squared action distance: thumb tip to index tip. */
  function ActionSq(h: Hand): real
  {
    DistSq(h.thumbTip, h.indexTip)
  }

  /** A hand of zero scale is skipped. */
  predicate Degenerate(h: Hand)
  {
    ScaleSq(h) == 0.0
  }

  /** ratio > 0.5, with both distances squared. */
  predicate IsOpen(h: Hand)
  {
    Above(ActionSq(h), OPEN_RATIO_SQ, ScaleSq(h))
  }

  /** ratio < 0.35, with both distances squared. */
  predicate IsPinch(h: Hand)
  {
    Below(ActionSq(h), PINCH_RATIO_SQ, ScaleSq(h))
  }

  predicate Above(a: real, c: real, s: real)
  {
    a > c * s
  }

  predicate Below(a: real, c: real, s: real)
  {
    a < c * s
  }

  /** The steering value a user-right hand produces: its middle knuckle's x mapped from [0, 1] to [-1, 1]. */
  function SteerX(h: Hand): real
  {
    (h.middleMCP.x - 0.5) * 2.0
  }

  /** The hands that can affect each output. */
  predicate OpensLeft(h: Hand)
  {
    !Degenerate(h) && LogicalSide(h.rawLabel) == UserLeft && IsOpen(h)
  }

  predicate PinchesRight(h: Hand)
  {
    !Degenerate(h) && LogicalSide(h.rawLabel) == UserRight && IsPinch(h)
  }

  predicate Steers(h: Hand)
  {
    !Degenerate(h) && LogicalSide(h.rawLabel) == UserRight
  }

  /** The three outputs before any hand is seen. */
  const NoGesture := HandGestures(false, false, 0.0)

  /**
   * One iteration of the loop over hands. The flags are only ever raised, a
   * user-left hand can only raise `isLeftOpen`, and a user-right hand can only
   * raise `isRightPinch` and overwrite `rightHandX`.
   */
  function Step(g: HandGestures, h: Hand): (r: HandGestures)
    ensures r.isLeftOpen == (g.isLeftOpen || OpensLeft(h))
    ensures r.isRightPinch == (g.isRightPinch || PinchesRight(h))
    ensures r.rightHandX == if Steers(h) then SteerX(h) else g.rightHandX
  {
    if Degenerate(h) then g
    else if LogicalSide(h.rawLabel) == UserLeft then
      (if IsOpen(h) then g.(isLeftOpen := true) else g)
    else
      g.(isRightPinch := g.isRightPinch || IsPinch(h), rightHandX := SteerX(h))
  }

  /** The loop over hands in detector order, from the state `g`. */
  function Accumulate(g: HandGestures, hands: seq<Hand>): HandGestures
    decreases |hands|
  {
    if |hands| == 0 then g
    else Step(Accumulate(g, hands[..|hands| - 1]), hands[|hands| - 1])
  }

  function Classify(hands: seq<Hand>): HandGestures
  {
    Accumulate(NoGesture, hands)
  }

  /** The gesture one detector result yields: nothing at all unless both arrays are present. */
  function Gestures(results: DetectorResults): HandGestures
    requires WellFormed(results)
  {
    if results.multiHandLandmarks.Some? && results.multiHandedness.Some? then
      Classify(HandsOf(results.multiHandLandmarks.value, results.multiHandedness.value))
    else
      NoGesture
  }

  /** Running the loop over a concatenation runs it over each part in turn. */
  lemma {:induction false} AccumulateAppend(g: HandGestures, a: seq<Hand>, b: seq<Hand>)
    ensures Accumulate(g, a + b) == Accumulate(Accumulate(g, a), b)
    decreases |b|
  {
    if |b| == 0 {
      assert a + b == a;
    } else {
      var init := b[..|b| - 1];
      AccumulateAppend(g, a, init);
      assert (a + b)[..|a + b| - 1] == a + init;
      assert (a + b)[|a + b| - 1] == b[|b| - 1];
    }
  }

  /** A hand of zero scale changes none of the three outputs, wherever it appears. */
  lemma DegenerateHandIgnored(g: HandGestures, a: seq<Hand>, h: Hand, b: seq<Hand>)
    requires Degenerate(h)
    ensures Accumulate(g, a + [h] + b) == Accumulate(g, a + b)
  {
    AccumulateAppend(g, a + [h], b);
    AccumulateAppend(g, a, [h]);
    assert [h][..0] == [];
    assert Accumulate(Accumulate(g, a), [h]) == Accumulate(g, a);
    AccumulateAppend(g, a, b);
  }

  predicate AnyOpensLeft(hands: seq<Hand>)
  {
    exists i :: 0 <= i < |hands| && OpensLeft(hands[i])
  }

  predicate AnyPinchesRight(hands: seq<Hand>)
  {
    exists i :: 0 <= i < |hands| && PinchesRight(hands[i])
  }

  /** `isLeftOpen` is the disjunction, over the non-degenerate user-left hands, of ratio > 0.5. */
  lemma {:induction false} LeftOpenIffSomeOpenLeftHand(hands: seq<Hand>)
    ensures Classify(hands).isLeftOpen <==> AnyOpensLeft(hands)
    decreases |hands|
  {
    if |hands| > 0 {
      var n := |hands| - 1;
      var init := hands[..n];
      LeftOpenIffSomeOpenLeftHand(init);
      if AnyOpensLeft(init) {
        var i :| 0 <= i < n && OpensLeft(init[i]);
        assert OpensLeft(hands[i]);
      }
      if AnyOpensLeft(hands) && !OpensLeft(hands[n]) {
        var i :| 0 <= i < |hands| && OpensLeft(hands[i]);
        assert i < n && init[i] == hands[i];
      }
    }
  }

  /** `isRightPinch` is the disjunction, over the non-degenerate user-right hands, of ratio < 0.35. */
  lemma {:induction false} RightPinchIffSomePinchingRightHand(hands: seq<Hand>)
    ensures Classify(hands).isRightPinch <==> AnyPinchesRight(hands)
    decreases |hands|
  {
    if |hands| > 0 {
      var n := |hands| - 1;
      var init := hands[..n];
      RightPinchIffSomePinchingRightHand(init);
      if AnyPinchesRight(init) {
        var i :| 0 <= i < n && PinchesRight(init[i]);
        assert PinchesRight(hands[i]);
      }
      if AnyPinchesRight(hands) && !PinchesRight(hands[n]) {
        var i :| 0 <= i < |hands| && PinchesRight(hands[i]);
        assert i < n && init[i] == hands[i];
      }
    }
  }

  /** `rightHandX` comes from the last non-degenerate user-right hand in detector order. */
  lemma {:induction false} RightHandXFromLastRightHand(hands: seq<Hand>, j: nat)
    requires j < |hands| && Steers(hands[j])
    requires forall k :: j < k < |hands| ==> !Steers(hands[k])
    ensures Classify(hands).rightHandX == SteerX(hands[j])
    decreases |hands|
  {
    var n := |hands| - 1;
    if j < n {
      var init := hands[..n];
      assert init[j] == hands[j];
      forall k | j < k < |init|
        ensures !Steers(init[k])
      {
        assert init[k] == hands[k];
      }
      RightHandXFromLastRightHand(init, j);
    }
  }

  /** Without a non-degenerate user-right hand `rightHandX` stays 0. */
  lemma {:induction false} RightHandXZeroWithoutRightHand(hands: seq<Hand>)
    requires forall k :: 0 <= k < |hands| ==> !Steers(hands[k])
    ensures Classify(hands).rightHandX == 0.0
    decreases |hands|
  {
    if |hands| > 0 {
      var init := hands[..|hands| - 1];
      assert forall k :: 0 <= k < |init| ==> init[k] == hands[k];
      RightHandXZeroWithoutRightHand(init);
    }
  }

  /** There is no clamp, but knuckles inside the image give `rightHandX` in [-1, 1]. */
  lemma {:induction false} RightHandXInRange(hands: seq<Hand>)
    requires forall k :: 0 <= k < |hands| ==> 0.0 <= hands[k].middleMCP.x <= 1.0
    ensures -1.0 <= Classify(hands).rightHandX <= 1.0
    decreases |hands|
  {
    if |hands| > 0 {
      var init := hands[..|hands| - 1];
      assert forall k :: 0 <= k < |init| ==> init[k] == hands[k];
      RightHandXInRange(init);
    }
  }

  function ScaleLandmark(p: Landmark, k: real): Landmark
  {
    Landmark(k * p.x, k * p.y)
  }

  /** Every landmark of the hand scaled by k about the image origin. */
  function ScaleHand(h: Hand, k: real): Hand
  {
    Hand(h.rawLabel, ScaleLandmark(h.wrist, k), ScaleLandmark(h.thumbTip, k),
         ScaleLandmark(h.indexTip, k), ScaleLandmark(h.middleMCP, k))
  }

  lemma DistSqScale(p: Landmark, q: Landmark, k: real)
    ensures DistSq(ScaleLandmark(p, k), ScaleLandmark(q, k)) == k * (k * DistSq(p, q))
  {
    var dx, dy := p.x - q.x, p.y - q.y;
    assert k * p.x - k * q.x == k * dx;
    assert k * p.y - k * q.y == k * dy;
    assert (k * dx) * (k * dx) == k * (k * (dx * dx));
    assert (k * dy) * (k * dy) == k * (k * (dy * dy));
  }

  /** The classification of one hand depends only on the ratio, so a uniform scaling by k > 0 keeps it. */
  lemma HandScaleInvariant(h: Hand, k: real)
    requires k > 0.0
    ensures Degenerate(ScaleHand(h, k)) == Degenerate(h)
    ensures IsOpen(ScaleHand(h, k)) == IsOpen(h)
    ensures IsPinch(ScaleHand(h, k)) == IsPinch(h)
  {
    var s, a := ScaleSq(h), ActionSq(h);
    ScaledHandDistances(h, k);
    DistSqNonNegative(h.wrist, h.middleMCP);
    ZeroScaled(s, k);
    ThresholdScaled(a, s, OPEN_RATIO_SQ, k);
    ThresholdScaled(a, s, PINCH_RATIO_SQ, k);
  }

  lemma ScaledHandDistances(h: Hand, k: real)
    ensures ScaleSq(ScaleHand(h, k)) == k * (k * ScaleSq(h))
    ensures ActionSq(ScaleHand(h, k)) == k * (k * ActionSq(h))
  {
    var g := ScaleHand(h, k);
    assert g.wrist == ScaleLandmark(h.wrist, k) && g.middleMCP == ScaleLandmark(h.middleMCP, k);
    assert g.thumbTip == ScaleLandmark(h.thumbTip, k) && g.indexTip == ScaleLandmark(h.indexTip, k);
    DistSqScale(h.wrist, h.middleMCP, k);
    DistSqScale(h.thumbTip, h.indexTip, k);
  }

  lemma ZeroScaled(s: real, k: real)
    requires k > 0.0 && s >= 0.0
    ensures k * (k * s) == 0.0 <==> s == 0.0
  {
    if s > 0.0 {
      PositiveProduct(k, s);
      PositiveProduct(k, k * s);
    }
  }

  lemma ThresholdScaled(a: real, s: real, c: real, k: real)
    requires k > 0.0
    ensures Above(k * (k * a), c, k * (k * s)) == Above(a, c, s)
    ensures Below(k * (k * a), c, k * (k * s)) == Below(a, c, s)
  {
    var q := c * s;
    assert c * (k * (k * s)) == k * (k * q);
    CompareScaled(k, a, q);
    CompareScaled(k, k * a, k * q);
  }

  lemma DistSqNonNegative(p: Landmark, q: Landmark)
    ensures DistSq(p, q) >= 0.0
  {
    SquareNonNegative(p.x - q.x);
    SquareNonNegative(p.y - q.y);
  }

  function ScaleHands(hands: seq<Hand>, k: real): (r: seq<Hand>)
    ensures |r| == |hands|
  {
    seq(|hands|, i requires 0 <= i < |hands| => ScaleHand(hands[i], k))
  }

  /** Scaling every hand by the same k > 0 leaves both flags of the gesture unchanged. */
  lemma FlagsScaleInvariant(hands: seq<Hand>, k: real)
    requires k > 0.0
    ensures Classify(ScaleHands(hands, k)).isLeftOpen == Classify(hands).isLeftOpen
    ensures Classify(ScaleHands(hands, k)).isRightPinch == Classify(hands).isRightPinch
  {
    var scaled := ScaleHands(hands, k);
    forall i | 0 <= i < |hands|
      ensures OpensLeft(scaled[i]) == OpensLeft(hands[i])
      ensures PinchesRight(scaled[i]) == PinchesRight(hands[i])
    {
      HandScaleInvariant(hands[i], k);
    }
    LeftOpenIffSomeOpenLeftHand(hands);
    LeftOpenIffSomeOpenLeftHand(scaled);
    RightPinchIffSomePinchingRightHand(hands);
    RightPinchIffSomePinchingRightHand(scaled);
  }

  /** `Math.hypot` of the two coordinate differences. */
  function Hypot(m: MathLib, p: Landmark, q: Landmark): real
  {
    m.sqrt(DistSq(p, q))
  }

  /** One iteration of the loop as written: a hypot of zero is skipped, otherwise the ratio is tested. */
  function RatioStep(m: MathLib, g: HandGestures, h: Hand): HandGestures
  {
    var handScale := Hypot(m, h.wrist, h.middleMCP);
    if handScale == 0.0 then g
    else
      var ratio := Hypot(m, h.thumbTip, h.indexTip) / handScale;
      var g1 := if LogicalSide(h.rawLabel) == UserLeft && ratio > OPEN_RATIO then g.(isLeftOpen := true) else g;
      if LogicalSide(h.rawLabel) == UserRight then
        g1.(isRightPinch := if ratio < PINCH_RATIO then true else g1.isRightPinch, rightHandX := SteerX(h))
      else g1
  }

  /** The hypot-and-ratio test of the source and the squared-distance test agree on every hand. */
  lemma RatioStepAgrees(m: MathLib, g: HandGestures, h: Hand)
    requires ValidMath(m)
    ensures RatioStep(m, g, h) == Step(g, h)
  {
    var s, a := ScaleSq(h), ActionSq(h);
    DistSqNonNegative(h.wrist, h.middleMCP);
    DistSqNonNegative(h.thumbTip, h.indexTip);
    var ss, sa := m.sqrt(s), m.sqrt(a);
    assert ss * ss == s && sa * sa == a && ss >= 0.0 && sa >= 0.0;
    if ss == 0.0 {
      assert s == 0.0;
    } else {
      RatioThreshold(sa, ss, a, s, OPEN_RATIO, OPEN_RATIO_SQ);
      RatioThreshold(sa, ss, a, s, PINCH_RATIO, PINCH_RATIO_SQ);
    }
  }

  /** The result callback: one gesture per detector result, accumulated hand by hand. */
  method OnResults(m: MathLib, results: DetectorResults) returns (gestures: HandGestures)
    requires ValidMath(m)
    requires WellFormed(results)
    ensures gestures == Gestures(results)
    ensures results.multiHandLandmarks.None? || results.multiHandedness.None? ==> gestures == NoGesture
  {
    var isLeftOpen, isRightPinch, rightHandX := false, false, 0.0;
    if results.multiHandLandmarks.Some? && results.multiHandedness.Some? {
      var all := results.multiHandLandmarks.value;
      var labels := results.multiHandedness.value;
      ghost var hands := HandsOf(all, labels);
      var i := 0;
      while i < |all|
        invariant 0 <= i <= |all|
        invariant HandGestures(isLeftOpen, isRightPinch, rightHandX) == Classify(hands[..i])
      {
        ghost var before := HandGestures(isLeftOpen, isRightPinch, rightHandX);
        assert hands[..i + 1][..i] == hands[..i];
        RatioStepAgrees(m, before, hands[i]);
        var landmarks := all[i];
        var side := LogicalSide(labels[i]);
        var wrist, thumbTip, indexTip, middleMCP :=
          landmarks[WRIST], landmarks[THUMB_TIP], landmarks[INDEX_TIP], landmarks[MIDDLE_MCP];
        var handScale := Hypot(m, wrist, middleMCP);
        if handScale == 0.0 {
          i := i + 1;
          continue;
        }
        var actionDist := Hypot(m, thumbTip, indexTip);
        var ratio := actionDist / handScale;
        if side == UserLeft {
          if ratio > OPEN_RATIO {
            isLeftOpen := true;
          }
        }
        if side == UserRight {
          if ratio < PINCH_RATIO {
            isRightPinch := true;
          }
          rightHandX := (middleMCP.x - 0.5) * 2.0;
        }
        i := i + 1;
      }
      assert hands[..|all|] == hands;
    }
    gestures := HandGestures(isLeftOpen, isRightPinch, rightHandX);
  }
}
