/**
 * The audio controller's beat follower. Each call reads the analyser's byte
 * spectrum, averages the eight lowest bins into a level in [0, 1], and moves
 * the current beat toward it: fast when the level rises (attack 0.3), slowly
 * when it falls (decay 0.05).
 */
module AudioService {
  import opened Smoothing

  /** A `Uint8Array` element. */
  type Byte = b: int | 0 <= b < 256

  /** The analyser's FFT size; it exposes half as many frequency bins. */
  const FFT_SIZE: nat := 512
  const FREQUENCY_BIN_COUNT: nat := FFT_SIZE / 2

  /** The number of lowest bins averaged into the bass level. */
  const BASS_BINS: nat := 8

  const ATTACK: real := 0.3
  const DECAY: real := 0.05

  /** The sum of the first n bins, each at most 255. */
  function SumTo(bins: seq<Byte>, n: nat): (r: nat)
    requires n <= |bins|
    ensures r <= 255 * n
  {
    if n == 0 then 0 else SumTo(bins, n - 1) + bins[n - 1]
  }

  /** The mean of the bass bins scaled from bytes to [0, 1]. */
  function BassLevel(bins: seq<Byte>): (level: real)
    requires |bins| >= BASS_BINS
    ensures 0.0 <= level <= 1.0
    ensures level == 0.0 <==> forall i :: 0 <= i < BASS_BINS ==> bins[i] == 0
    ensures level == 1.0 <==> forall i :: 0 <= i < BASS_BINS ==> bins[i] == 255
  {
    SumZeroIffAllZero(bins, BASS_BINS);
    SumFullIffAllFull(bins, BASS_BINS);
    (SumTo(bins, BASS_BINS) as real / BASS_BINS as real) / 255.0
  }

  lemma {:induction false} SumZeroIffAllZero(bins: seq<Byte>, n: nat)
    requires n <= |bins|
    ensures SumTo(bins, n) == 0 <==> forall i :: 0 <= i < n ==> bins[i] == 0
  {
    if n > 0 {
      SumZeroIffAllZero(bins, n - 1);
    }
  }

  lemma {:induction false} SumFullIffAllFull(bins: seq<Byte>, n: nat)
    requires n <= |bins|
    ensures SumTo(bins, n) == 255 * n <==> forall i :: 0 <= i < n ==> bins[i] == 255
  {
    if n > 0 {
      SumFullIffAllFull(bins, n - 1);
    }
  }

  /** The smoothing factor: attack when the target is above the beat, decay otherwise. */
  function Rate(beat: real, target: real): real
  {
    if target > beat then ATTACK else DECAY
  }

  /** One call's update of the current beat. */
  function Follow(beat: real, target: real): (r: real)
    ensures Between(r, beat, target)
    ensures target > beat ==> r - beat == ATTACK * (target - beat)
    ensures target <= beat ==> beat - r == DECAY * (beat - target)
    ensures r == beat <==> target == beat
  {
    LerpNoOvershoot(beat, target, Rate(beat, target));
    beat + (target - beat) * Rate(beat, target)
  }

  /** A beat and a level in [0, 1] give a new beat in [0, 1]. */
  lemma FollowStaysInUnit(beat: real, target: real)
    requires 0.0 <= beat <= 1.0 && 0.0 <= target <= 1.0
    ensures 0.0 <= Follow(beat, target) <= 1.0
  {
  }

  /** n calls with the same level. */
  function FollowN(beat: real, target: real, n: nat): real
    decreases n
  {
    if n == 0 then beat else FollowN(Follow(beat, target), target, n - 1)
  }

  function Power(x: real, n: nat): real
  {
    if n == 0 then 1.0 else x * Power(x, n - 1)
  }

  lemma {:induction false} PowerInUnit(x: real, n: nat)
    requires 0.0 < x < 1.0
    ensures 0.0 < Power(x, n) <= 1.0
  {
    if n > 0 {
      PowerInUnit(x, n - 1);
      PositiveProduct(x, Power(x, n - 1));
    }
  }

  lemma Associate(a: real, b: real, c: real)
    ensures (a * b) * c == a * (b * c)
  {
  }



  /** Under a steady higher level the gap shrinks by the factor 0.7 per call, so the beat rises toward the level and never reaches it. */
  lemma {:induction false} AttackClosedForm(beat: real, target: real, n: nat)
    requires target > beat
    ensures target - FollowN(beat, target, n) == (target - beat) * Power(1.0 - ATTACK, n)
    ensures FollowN(beat, target, n) < target
    decreases n
  {
    if n > 0 {
      var b1 := Follow(beat, target);
      var gap, gap1 := target - beat, target - b1;
      assert gap1 == gap * (1.0 - ATTACK);
      AttackClosedForm(b1, target, n - 1);
      assert FollowN(beat, target, n) == FollowN(b1, target, n - 1);
      var p := Power(1.0 - ATTACK, n - 1);
      assert target - FollowN(beat, target, n) == gap1 * p;
      assert Power(1.0 - ATTACK, n) == (1.0 - ATTACK) * p;
      Associate(gap, 1.0 - ATTACK, p);
    } else {
      assert Power(1.0 - ATTACK, 0) == 1.0;
    }
    PowerInUnit(1.0 - ATTACK, n);
    PositiveProduct(target - beat, Power(1.0 - ATTACK, n));
  }

  /** Under a steady lower level the excess shrinks by the factor 0.95 per call, so the beat falls toward the level and never passes it. */
  lemma {:induction false} DecayClosedForm(beat: real, target: real, n: nat)
    requires target <= beat
    ensures FollowN(beat, target, n) - target == (beat - target) * Power(1.0 - DECAY, n)
    ensures target <= FollowN(beat, target, n)
    decreases n
  {
    if n > 0 {
      var b1 := Follow(beat, target);
      var excess, excess1 := beat - target, b1 - target;
      assert excess1 == excess * (1.0 - DECAY);
      DecayClosedForm(b1, target, n - 1);
      assert FollowN(beat, target, n) == FollowN(b1, target, n - 1);
      var p := Power(1.0 - DECAY, n - 1);
      assert FollowN(beat, target, n) - target == excess1 * p;
      assert Power(1.0 - DECAY, n) == (1.0 - DECAY) * p;
      Associate(excess, 1.0 - DECAY, p);
    } else {
      assert Power(1.0 - DECAY, 0) == 1.0;
    }
    PowerInUnit(1.0 - DECAY, n);
    NonNegativeProduct(beat - target, Power(1.0 - DECAY, n));
  }

  /** A steady level is approached monotonically: each further call moves the beat closer without passing the level. */
  lemma {:induction false} SteadyLevelMonotone(beat: real, target: real, n: nat)
    ensures Between(FollowN(beat, target, n + 1), FollowN(beat, target, n), target)
  {
    FollowNSplit(beat, target, n);
  }

  lemma {:induction false} FollowNSplit(beat: real, target: real, n: nat)
    ensures FollowN(beat, target, n + 1) == Follow(FollowN(beat, target, n), target)
    decreases n
  {
    if n > 0 {
      FollowNSplit(Follow(beat, target), target, n - 1);
    }
  }

  /**
   * The audio controller. `hasContext` stands for the audio context, analyser
   * and source created by `setup`; `dataArray` is the spectrum buffer.
   */
  class AudioController {
    var hasContext: bool
    var dataArray: array?<Byte>
    var isReady: bool
    var currentBeat: real

    ghost predicate Valid()
      reads this
    {
      && (dataArray != null ==> dataArray.Length == FREQUENCY_BIN_COUNT && hasContext)
      && (isReady ==> hasContext && dataArray != null)
    }

    constructor()
      ensures Valid()
      ensures !hasContext && dataArray == null && !isReady && currentBeat == 0.0
    {
      hasContext := false;
      dataArray := null;
      isReady := false;
      currentBeat := 0.0;
    }

    /** Creates the audio graph and the spectrum buffer once; a second call returns at once. */
    method Setup()
      requires Valid()
      modifies this
      ensures Valid()
      ensures old(hasContext) ==>
                hasContext == old(hasContext) && dataArray == old(dataArray)
                && isReady == old(isReady) && currentBeat == old(currentBeat)
      ensures !old(hasContext) ==>
                hasContext && isReady && fresh(dataArray) && currentBeat == old(currentBeat)
    {
      if hasContext {
        return;
      }
      hasContext := true;
      dataArray := new Byte[FREQUENCY_BIN_COUNT];
      isReady := true;
    }

    /**
     * Reads the analyser's spectrum (given as `spectrum`), averages the bass
     * bins and moves the current beat toward that level. Before setup it
     * returns 0 and changes nothing.
     */
    method GetBeat(spectrum: seq<Byte>) returns (beat: real)
      requires Valid()
      requires |spectrum| == FREQUENCY_BIN_COUNT
      modifies this, dataArray
      ensures Valid()
      ensures hasContext == old(hasContext) && dataArray == old(dataArray) && isReady == old(isReady)
      ensures !isReady ==> beat == 0.0 && currentBeat == old(currentBeat)
      ensures isReady ==>
                dataArray[..] == spectrum
                && currentBeat == Follow(old(currentBeat), BassLevel(spectrum))
                && beat == currentBeat
    {
      if !isReady || !hasContext || dataArray == null {
        return 0.0;
      }
      forall i | 0 <= i < dataArray.Length {
        dataArray[i] := spectrum[i];
      }
      var sum: int := 0;
      var i := 0;
      while i < BASS_BINS
        invariant 0 <= i <= BASS_BINS
        invariant sum == SumTo(dataArray[..], i)
      {
        sum := sum + dataArray[i];
        i := i + 1;
      }
      assert dataArray[..] == spectrum;
      var rawTarget := (sum as real / BASS_BINS as real) / 255.0;
      if rawTarget > currentBeat {
        currentBeat := currentBeat + (rawTarget - currentBeat) * ATTACK;
      } else {
        currentBeat := currentBeat + (rawTarget - currentBeat) * DECAY;
      }
      beat := currentBeat;
    }
  }
}
