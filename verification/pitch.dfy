/** Pitch (F0) estimation by normalised autocorrelation, as performed once per
    frame by the backchannel ("aizuchi") system.

    A frame is a sequence of time-domain samples. Samples, the signal power and
    the correlations are idealised as `real`: the rounding of the 32-bit and
    64-bit floating point arithmetic of the original is not modelled. The one
    floating point effect that changes the outcome, the NaN produced by 0/0 on a
    silent frame, is kept explicitly (see `Confidence`).
 */
module PitchDetector {

  /** Lower end of the pitch search band, in Hz (gives the largest lag). */
  const MinPitchHz: real := 50.0
  /** Upper end of the pitch search band, in Hz (gives the smallest lag). */
  const MaxPitchHz: real := 500.0
  /** A best normalised correlation below this reports the frame as unvoiced. */
  const VoicingFloor: real := 0.5
  /** The lowest sample rate the estimator supports: below it the first lag,
      floor(sampleRate / 500), is 0. */
  const MinSampleRate: real := 500.0
  /** The estimate that stands for "no reliable pitch". */
  const Unvoiced: real := 0.0

  /** The first lag searched: floor(sampleRate / 500). */
  function MinLag(sampleRate: real): int {
    (sampleRate / MaxPitchHz).Floor
  }

  /** One past the last lag searched: floor(sampleRate / 50). */
  function MaxLag(sampleRate: real): int {
    (sampleRate / MinPitchHz).Floor
  }

  /** Sum of the squares of the first `n` samples. */
  function PowerUpTo(x: seq<real>, n: nat): real
    requires n <= |x|
  {
    if n == 0 then 0.0 else PowerUpTo(x, n - 1) + x[n - 1] * x[n - 1]
  }

  /** Total signal power of a frame: the sum of its squared samples. */
  function Power(x: seq<real>): real {
    PowerUpTo(x, |x|)
  }

  /** Sum of x[i] * x[i + lag] for i < n. */
  function CorrUpTo(x: seq<real>, lag: nat, n: nat): real
    requires n + lag <= |x|
  {
    if n == 0 then 0.0 else CorrUpTo(x, lag, n - 1) + x[n - 1] * x[n - 1 + lag]
  }

  /** Unnormalised autocorrelation at `lag`: the sum of x[i] * x[i + lag] over
      every i with i + lag inside the frame; a lag at least as long as the frame
      overlaps nothing and gives 0. */
  function Corr(x: seq<real>, lag: nat): real {
    if lag < |x| then CorrUpTo(x, lag, |x| - lag) else 0.0
  }

  /** Correlation normalised by power: a number, or the NaN that floating point
      division yields for 0/0 on a silent frame. */
  datatype Confidence = NaN | Value(c: real)

  /** Floating point division of a correlation by the power. In exact
      arithmetic a zero power (a sum of squares) means every sample is zero,
      so the correlation is zero too and the division is 0/0, which is NaN. */
  function Normalise(correlation: real, power: real): Confidence {
    if power == 0.0 then NaN else Value(correlation / power)
  }

  /** The comparison `c > m`, which is false when `c` is NaN. */
  predicate Exceeds(c: Confidence, m: real) {
    c.Value? && c.c > m
  }

  /** Normalised correlation at `lag` of a frame with non-zero power. */
  function Similarity(x: seq<real>, lag: nat): real
    requires Power(x) != 0.0
  {
    Corr(x, lag) / Power(x)
  }

  /** The frame is periodic enough at `lag` to count as voiced there. */
  ghost predicate Voiced(x: seq<real>, lag: nat) {
    Power(x) != 0.0 && Similarity(x, lag) >= VoicingFloor
  }

  /** `lag` is the FIRST lag of [lo, hi) at which the normalised correlation
      reaches its maximum over that range. */
  ghost predicate FirstBestLag(x: seq<real>, lo: int, hi: int, lag: nat) {
    Power(x) != 0.0 && lo <= lag < hi
    && (forall l: nat :: lo <= l < hi ==> Similarity(x, l) <= Similarity(x, lag))
    && (forall l: nat :: lo <= l < lag ==> Similarity(x, l) < Similarity(x, lag))
  }

  /** What a pitch estimate of frame `x` at `sampleRate` must be: unvoiced
      exactly when no lag of the search band is voiced, and otherwise the
      frequency of the first lag of the band with the best normalised
      correlation. */
  ghost predicate IsPitchEstimate(x: seq<real>, sampleRate: real, f0: real) {
    var lo, hi := MinLag(sampleRate), MaxLag(sampleRate);
    (f0 == Unvoiced <==> forall l: nat :: lo <= l < hi ==> !Voiced(x, l))
    && (f0 != Unvoiced ==>
          exists lag: nat :: 0 < lag && FirstBestLag(x, lo, hi, lag) && Voiced(x, lag) && f0 == sampleRate / lag as real)
  }

  /** Computes the signal power with a running sum. */
  method SignalPower(x: seq<real>) returns (p: real)
    ensures p == Power(x)
  {
    p := 0.0;
    var i := 0;
    while i < |x|
      invariant 0 <= i <= |x|
      invariant p == PowerUpTo(x, i)
    {
      p := p + x[i] * x[i];
      i := i + 1;
    }
  }

  /** Computes the unnormalised autocorrelation at `lag` with a running sum; the
      loop bound |x| - lag is negative for a lag past the frame's end. */
  method Correlation(x: seq<real>, lag: nat) returns (c: real)
    ensures c == Corr(x, lag)
  {
    c := 0.0;
    var i := 0;
    while i < |x| - lag
      invariant 0 <= i
      invariant i + lag <= |x| || i == 0
      invariant c == (if i + lag <= |x| then CorrUpTo(x, lag, i) else 0.0)
    {
      c := c + x[i] * x[i + lag];
      i := i + 1;
    }
  }

  /** The lag bounds of a sample rate of at least 500 Hz: the band is never
      empty and its first lag is at least 1, so no frequency divides by 0. */
  lemma LagBounds(sampleRate: real)
    requires sampleRate >= MinSampleRate
    ensures 1 <= MinLag(sampleRate) < MaxLag(sampleRate)
  {
    var a, b := sampleRate / MaxPitchHz, sampleRate / MinPitchHz;
    assert 1.0 <= a && a + 1.0 <= b;
  }

  /** Every lag of the band corresponds to a frequency strictly above 50 Hz. */
  lemma LagPitchAboveFloor(sampleRate: real, lag: int)
    requires sampleRate >= MinSampleRate
    requires 1 <= lag < MaxLag(sampleRate)
    ensures sampleRate / lag as real > MinPitchHz
  {
    var l := lag as real;
    assert l < sampleRate / MinPitchHz;
    assert l * MinPitchHz < sampleRate;
  }

  /** The samples of an all-zero prefix add up to zero power. */
  lemma {:induction false} SilentPrefixPower(x: seq<real>, n: nat)
    requires n <= |x|
    requires forall i :: 0 <= i < |x| ==> x[i] == 0.0
    ensures PowerUpTo(x, n) == 0.0
  {
    if n > 0 {
      SilentPrefixPower(x, n - 1);
    }
  }

  /** A silent frame (all samples zero) has zero power, so it is unvoiced at
      every lag (see `SilentFrameEstimate` for its pitch estimate). */
  lemma SilentFrameUnvoiced(x: seq<real>)
    requires forall i :: 0 <= i < |x| ==> x[i] == 0.0
    ensures Power(x) == 0.0
    ensures forall l: nat :: !Voiced(x, l)
  {
    SilentPrefixPower(x, |x|);
  }

  /** A frame no longer than the first lag overlaps itself at no lag of the
      band, so every correlation is 0 and no lag is voiced (see
      `ShortFrameEstimate` for its pitch estimate). */
  lemma ShortFrameUnvoiced(x: seq<real>, sampleRate: real)
    requires |x| <= MinLag(sampleRate)
    ensures forall l: nat :: MinLag(sampleRate) <= l ==> !Voiced(x, l)
  {
    forall l: nat | MinLag(sampleRate) <= l
      ensures !Voiced(x, l)
    {
      assert Corr(x, l) == 0.0;
    }
  }

  /** Every pitch estimate of a silent frame is the unvoiced sentinel. */
  lemma SilentFrameEstimate(x: seq<real>, sampleRate: real)
    requires forall i :: 0 <= i < |x| ==> x[i] == 0.0
    ensures forall f0 :: IsPitchEstimate(x, sampleRate, f0) ==> f0 == Unvoiced
  {
    SilentFrameUnvoiced(x);
  }

  /** Every pitch estimate of a frame no longer than the first lag is the
      unvoiced sentinel. */
  lemma ShortFrameEstimate(x: seq<real>, sampleRate: real)
    requires |x| <= MinLag(sampleRate)
    ensures forall f0 :: IsPitchEstimate(x, sampleRate, f0) ==> f0 == Unvoiced
  {
    ShortFrameUnvoiced(x, sampleRate);
  }

  /** Of the lags of a range, at most one is the first with the best
      normalised correlation, so `IsPitchEstimate` admits one estimate per
      frame and sample rate. */
  lemma FirstBestLagUnique(x: seq<real>, lo: int, hi: int, a: nat, b: nat)
    requires FirstBestLag(x, lo, hi, a)
    requires FirstBestLag(x, lo, hi, b)
    ensures a == b
  {
    assert Similarity(x, a) == Similarity(x, b);
  }

  /** The characterisation fixes the estimate: a frame and a sample rate
      admit at most one pitch estimate. */
  lemma EstimateUnique(x: seq<real>, sampleRate: real, f1: real, f2: real)
    requires sampleRate >= MinSampleRate
    requires IsPitchEstimate(x, sampleRate, f1)
    requires IsPitchEstimate(x, sampleRate, f2)
    ensures f1 == f2
  {
    var lo, hi := MinLag(sampleRate), MaxLag(sampleRate);
    if f1 != Unvoiced && f2 != Unvoiced {
      var a: nat :| 0 < a && FirstBestLag(x, lo, hi, a) && Voiced(x, a) && f1 == sampleRate / a as real;
      var b: nat :| 0 < b && FirstBestLag(x, lo, hi, b) && Voiced(x, b) && f2 == sampleRate / b as real;
      FirstBestLagUnique(x, lo, hi, a, b);
    }
  }

  /** detectF0: scans the lags of the 50-500 Hz band in increasing order,
      keeping a running maximum of the normalised correlation that starts at 0
      and moves only on a strictly greater value, and reports the frequency of
      the lag that set it unless that maximum is below 0.5. */
  method DetectF0(x: seq<real>, sampleRate: real) returns (f0: real)
    requires sampleRate >= MinSampleRate
    ensures f0 == Unvoiced || f0 > MinPitchHz
    ensures IsPitchEstimate(x, sampleRate, f0)
  {
    var maxCorrelation := 0.0;
    f0 := 0.0;
    var signalPower := SignalPower(x);

    var minLag, maxLag := MinLag(sampleRate), MaxLag(sampleRate);
    LagBounds(sampleRate);
    ghost var best: int := -1;
    var lag := minLag;
    while lag < maxLag
      invariant minLag <= lag <= maxLag
      invariant 0.0 <= maxCorrelation
      invariant signalPower != 0.0 ==>
                  forall l: nat :: minLag <= l < lag ==> Similarity(x, l) <= maxCorrelation
      invariant best < 0 ==> maxCorrelation == 0.0 && f0 == 0.0
      invariant best >= 0 ==>
                  signalPower != 0.0 && minLag <= best < lag
                  && Similarity(x, best) == maxCorrelation && f0 == sampleRate / best as real
                  && forall l: nat :: minLag <= l < best ==> Similarity(x, l) < maxCorrelation
    {
      var correlation := Correlation(x, lag);
      var c := Normalise(correlation, signalPower);
      if Exceeds(c, maxCorrelation) {
        maxCorrelation := c.c;
        f0 := sampleRate / lag as real;
        best := lag;
      }
      lag := lag + 1;
    }

    if maxCorrelation < VoicingFloor {
      f0 := Unvoiced;
    } else {
      LagPitchAboveFloor(sampleRate, best);
      assert FirstBestLag(x, minLag, maxLag, best) && Voiced(x, best);
    }
  }
}
