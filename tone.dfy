/**
 * The volume and tone stages of the equaliser (tone.py).
 *
 * Samples are real numbers standing for IEEE 64-bit floats. A stereo array
 * is handled as its flat, frame-interleaved sample sequence: every step of
 * these stages that the model interprets acts on each sample alone.
 *
 * Three pieces of numerics come from libraries and are left uninterpreted:
 * the power `10 ** x`, the Butterworth design routine `butter` and the
 * filter `lfilter`. They are parameters of the stages. The model assumes
 * that `lfilter` keeps the length of its signal, and it models the one rule
 * of `butter` that the source can run into: every critical frequency must
 * lie strictly between 0 and 1.
 */
module Tone {
  import opened Wrappers

  /** A volume setting below this is exact silence. */
  const MuteThreshold: real := 0.1
  /** Volume settings above this are treated as this. */
  const MaxVolume: real := 25.0

  /** Band edges in Hz. */
  const BassCutoff: real := 300.0
  const MidCutoff: real := 2000.0
  const TrebleCutoff: real := 4000.0
  /** Order of every Butterworth filter. */
  const FilterOrder: nat := 2
  /** The largest band gain is normalised to this value. */
  const GainCeiling: real := 10.0

  /** Every sample multiplied by `k` (numpy's `k * data`). */
  function Scaled(k: real, data: seq<real>): seq<real> {
    seq(|data|, i requires 0 <= i < |data| => k * data[i])
  }

  /** A zero sample for every input sample (numpy's `zeros_like`). */
  function ZerosLike(data: seq<real>): seq<real> {
    seq(|data|, _ => 0.0)
  }

  // ---------------------------------------------------------------------------
  // Volume stage
  // ---------------------------------------------------------------------------

  /** Python's `min(a, b)`: the first argument unless the second is smaller. */
  function Min(a: real, b: real): (r: real)
    ensures r <= a && r <= b
    ensures r == a || r == b
  {
    if b < a then b else a
  }

  /** The linear factor the volume stage multiplies by for an audible setting. */
  function VolumeScale(volume: real, pow10: real -> real): (s: real)
    ensures volume <= MaxVolume ==> s == pow10(volume / 10.0)
    ensures volume >= MaxVolume ==> s == pow10(MaxVolume / 10.0)
  {
    pow10(Min(volume, MaxVolume) / 10.0)
  }

  /** `apply_volume`: silence below the threshold, otherwise one common gain. */
  function ApplyVolume(data: seq<real>, volume: real, pow10: real -> real): (r: seq<real>)
    ensures |r| == |data|
  {
    if volume < MuteThreshold then ZerosLike(data)
    else Scaled(VolumeScale(volume, pow10), data)
  }

  lemma VolumeMutes(data: seq<real>, volume: real, pow10: real -> real)
    requires volume < MuteThreshold
    ensures |ApplyVolume(data, volume, pow10)| == |data|
    ensures forall i :: 0 <= i < |data| ==> ApplyVolume(data, volume, pow10)[i] == 0.0
  {
  }

  lemma VolumeScalesEverySample(data: seq<real>, volume: real, pow10: real -> real)
    requires volume >= MuteThreshold
    ensures |ApplyVolume(data, volume, pow10)| == |data|
    ensures forall i :: 0 <= i < |data| ==>
      ApplyVolume(data, volume, pow10)[i] == pow10(Min(volume, MaxVolume) / 10.0) * data[i]
    ensures volume <= MaxVolume ==> VolumeScale(volume, pow10) == pow10(volume / 10.0)
  {
  }

  /** Every setting at or above the ceiling sounds exactly like the ceiling. */
  lemma VolumeCeiling(data: seq<real>, volume: real, pow10: real -> real)
    requires volume >= MaxVolume
    ensures ApplyVolume(data, volume, pow10) == ApplyVolume(data, MaxVolume, pow10)
  {
  }

  // ---------------------------------------------------------------------------
  // Gain normalisation
  // ---------------------------------------------------------------------------

  datatype Gains = Gains(bass: real, mid: real, treble: real)

  /** The product of two non-negative reals is non-negative. */
  lemma NonNegativeProduct(a: real, b: real)
    requires a >= 0.0 && b >= 0.0
    ensures a * b >= 0.0
  {
  }

  /** Python's `max(bass, mid, treble)`. */
  function MaxGain(g: Gains): (m: real)
    ensures m == g.bass || m == g.mid || m == g.treble
    ensures g.bass <= m && g.mid <= m && g.treble <= m
  {
    var bm := if g.mid > g.bass then g.mid else g.bass;
    if g.treble > bm then g.treble else bm
  }

  /** All three gains multiplied by `k`. */
  function ScaleGains(g: Gains, k: real): Gains {
    Gains(k * g.bass, k * g.mid, k * g.treble)
  }

  /** The gains rescaled by `10.0 / max` (defined only when the maximum is not zero). */
  function Normalise(g: Gains): (n: Gains)
    requires MaxGain(g) != 0.0
    ensures n.bass * MaxGain(g) == GainCeiling * g.bass
    ensures n.mid * MaxGain(g) == GainCeiling * g.mid
    ensures n.treble * MaxGain(g) == GainCeiling * g.treble
  {
    var norm := GainCeiling / MaxGain(g);
    Gains(g.bass * norm, g.mid * norm, g.treble * norm)
  }

  /**
   * One gain `x` under the factor `10 / m`: the result is `10 * x / m`, it is
   * 10 when `x` is `m`, and at most 10 when `m` is positive and `x <= m`.
   */
  lemma NormalisedValue(x: real, m: real)
    requires m != 0.0 && x <= m
    ensures x * (GainCeiling / m) == GainCeiling * x / m
    ensures x == m ==> x * (GainCeiling / m) == GainCeiling
    ensures m > 0.0 ==> x * (GainCeiling / m) <= GainCeiling
  {
    if m > 0.0 {
      var norm := GainCeiling / m;
      assert m * norm == GainCeiling;
      NonNegativeProduct(m - x, norm);
    }
  }

  /**
   * Each normalised gain is `10 * g / max`; the band that attains the maximum
   * becomes exactly 10, and when the maximum is positive 10 is the new maximum.
   */
  lemma NormaliseLargestIsTen(g: Gains)
    requires MaxGain(g) != 0.0
    ensures Normalise(g).bass == GainCeiling * g.bass / MaxGain(g)
    ensures Normalise(g).mid == GainCeiling * g.mid / MaxGain(g)
    ensures Normalise(g).treble == GainCeiling * g.treble / MaxGain(g)
    ensures g.bass == MaxGain(g) ==> Normalise(g).bass == GainCeiling
    ensures g.mid == MaxGain(g) ==> Normalise(g).mid == GainCeiling
    ensures g.treble == MaxGain(g) ==> Normalise(g).treble == GainCeiling
    ensures MaxGain(g) > 0.0 ==> MaxGain(Normalise(g)) == GainCeiling
  {
    var m := MaxGain(g);
    NormalisedValue(g.bass, m);
    NormalisedValue(g.mid, m);
    NormalisedValue(g.treble, m);
  }

  /** Non-negative gains with a positive maximum normalise into [0, 10]. */
  lemma NormaliseBounds(g: Gains)
    requires MaxGain(g) > 0.0
    requires g.bass >= 0.0 && g.mid >= 0.0 && g.treble >= 0.0
    ensures 0.0 <= Normalise(g).bass <= GainCeiling
    ensures 0.0 <= Normalise(g).mid <= GainCeiling
    ensures 0.0 <= Normalise(g).treble <= GainCeiling
  {
    var m := MaxGain(g);
    NonNegativeProduct(g.bass, GainCeiling / m);
    NonNegativeProduct(g.mid, GainCeiling / m);
    NonNegativeProduct(g.treble, GainCeiling / m);
    NormalisedValue(g.bass, m);
    NormalisedValue(g.mid, m);
    NormalisedValue(g.treble, m);
  }

  /** Scaling by a positive constant scales the maximum by it. */
  lemma MaxGainScales(g: Gains, k: real)
    requires k > 0.0
    ensures MaxGain(ScaleGains(g, k)) == k * MaxGain(g)
  {
    var bm := if g.mid > g.bass then g.mid else g.bass;
    MonotoneProduct(k, g.mid, g.bass);
    assert (if k * g.mid > k * g.bass then k * g.mid else k * g.bass) == k * bm;
    MonotoneProduct(k, g.treble, bm);
  }

  lemma MonotoneProduct(k: real, x: real, y: real)
    requires k > 0.0
    ensures x <= y <==> k * x <= k * y
  {
    if x <= y {
      assert k * (y - x) >= 0.0;
    } else {
      assert k * (x - y) > 0.0;
    }
  }

  /** The factor `10 / (k * m)` applied to `k * x` is the factor `10 / m` applied to `x`. */
  lemma ScaledNormalisedValue(x: real, k: real, m: real)
    requires k > 0.0 && m != 0.0
    ensures (k * x) * (GainCeiling / (k * m)) == x * (GainCeiling / m)
  {
    assert k * (GainCeiling / (k * m)) == GainCeiling / m;
    assert (k * x) * (GainCeiling / (k * m)) == x * (k * (GainCeiling / (k * m)));
  }

  /** `Normalise` written out for a known non-zero maximum `m`. */
  lemma NormaliseWithMax(g: Gains, m: real)
    requires MaxGain(g) == m && m != 0.0
    ensures Normalise(g) == Gains(g.bass * (GainCeiling / m), g.mid * (GainCeiling / m), g.treble * (GainCeiling / m))
  {
  }

  /** `Normalise` of the gains scaled by `k`, when their maximum is `k * m`. */
  lemma NormaliseScaledWithMax(g: Gains, k: real, m: real)
    requires k > 0.0 && m != 0.0
    requires MaxGain(ScaleGains(g, k)) == k * m
    ensures Normalise(ScaleGains(g, k))
      == Gains(g.bass * (GainCeiling / m), g.mid * (GainCeiling / m), g.treble * (GainCeiling / m))
  {
    NonZeroProduct(k, m);
    NormaliseWithMax(ScaleGains(g, k), k * m);
    ScaledNormalisedValue(g.bass, k, m);
    ScaledNormalisedValue(g.mid, k, m);
    ScaledNormalisedValue(g.treble, k, m);
  }

  /** Normalisation ignores a common positive factor on the three gains. */
  lemma NormaliseScaleInvariant(g: Gains, k: real)
    requires k > 0.0 && MaxGain(g) != 0.0
    ensures MaxGain(ScaleGains(g, k)) != 0.0
    ensures Normalise(ScaleGains(g, k)) == Normalise(g)
  {
    var m := MaxGain(g);
    MaxGainScales(g, k);
    NonZeroProduct(k, m);
    NormaliseScaledWithMax(g, k, m);
    NormaliseWithMax(g, m);
  }

  lemma NonZeroProduct(k: real, m: real)
    requires k > 0.0 && m != 0.0
    ensures k * m != 0.0
  {
  }

  // ---------------------------------------------------------------------------
  // Filter design and cutoffs
  // ---------------------------------------------------------------------------

  datatype BandType = LowPass | BandPass | HighPass

  /** The `Wn` argument of `butter`: one frequency or a band, as fractions of Nyquist. */
  datatype CriticalFreq = Single(wn: real) | Band(low: real, high: real)

  /** Numerator `b` and denominator `a` of a filter's transfer function. */
  datatype Coefficients = Coefficients(b: seq<real>, a: seq<real>)

  /** The coefficient design of `scipy.signal.butter` for valid arguments. */
  type Design = (nat, CriticalFreq, BandType) -> Coefficients

  /** `scipy.signal.lfilter(b, a, x)`: an output sample for every input sample. */
  type LFilter = f: (seq<real>, seq<real>, seq<real>) -> seq<real>
    | forall b, a, x :: |f(b, a, x)| == |x|
    witness (b: seq<real>, a: seq<real>, x: seq<real>) => x

  /** The exceptions (and the not-a-number outcome) of `apply_tone`. */
  datatype ToneError =
    | ZeroDivision           // the sample rate is 0, so `rate / 2` is 0.0
    | CriticalFrequencyRange // `butter` refuses a critical frequency outside (0, 1)
    | UndefinedGains         // all gains' maximum is 0: `10.0 / 0` makes every gain inf or nan

  /** `cutoff / (rate / 2)`: a cutoff as a fraction of the Nyquist frequency. */
  function NormalisedCutoff(hz: real, rate: nat): (wn: real)
    requires rate > 0
    ensures wn * (rate as real / 2.0) == hz
    ensures hz > 0.0 ==> wn > 0.0
  {
    hz / (rate as real / 2.0)
  }

  predicate InUnitInterval(x: real) {
    0.0 < x < 1.0
  }

  predicate CriticalFreqValid(wn: CriticalFreq) {
    match wn
    case Single(w) => InUnitInterval(w)
    case Band(lo, hi) => InUnitInterval(lo) && InUnitInterval(hi)
  }

  /** `butter`: validates its critical frequencies, then designs the filter. */
  function Butter(order: nat, wn: CriticalFreq, btype: BandType, design: Design): (r: Result<Coefficients, ToneError>)
    ensures r.Success? <==> CriticalFreqValid(wn)
    ensures r.Failure? ==> r.error == CriticalFrequencyRange
  {
    if CriticalFreqValid(wn) then Success(design(order, wn, btype))
    else Failure(CriticalFrequencyRange)
  }

  /** For positive `d`, `x / d < 1` exactly when `x < d`. */
  lemma QuotientBelowOne(x: real, d: real)
    requires d > 0.0 && x > 0.0
    ensures 0.0 < x / d
    ensures x / d < 1.0 <==> x < d
  {
    var q := x / d;
    assert q * d == x;
    if q < 1.0 {
      assert (1.0 - q) * d > 0.0;
    } else {
      NonNegativeProduct(q - 1.0, d);
      assert (q - 1.0) * d + d == x;
    }
  }

  /** A cutoff of `hz` lies strictly inside (0, 1) of Nyquist exactly when the rate exceeds `2 * hz`. */
  lemma CutoffBelowNyquist(hz: real, rate: nat)
    requires hz > 0.0 && rate > 0
    ensures InUnitInterval(NormalisedCutoff(hz, rate)) <==> rate as real > 2.0 * hz
  {
    QuotientBelowOne(hz, rate as real / 2.0);
  }

  /** The three filters can all be designed exactly when the rate is above 8000 Hz. */
  lemma CutoffsValidIff(rate: nat)
    requires rate > 0
    ensures (InUnitInterval(NormalisedCutoff(BassCutoff, rate))
             && InUnitInterval(NormalisedCutoff(MidCutoff, rate))
             && InUnitInterval(NormalisedCutoff(TrebleCutoff, rate))) <==> rate > 8000
  {
    CutoffBelowNyquist(BassCutoff, rate);
    CutoffBelowNyquist(MidCutoff, rate);
    CutoffBelowNyquist(TrebleCutoff, rate);
  }

  /** The mid band's lower edge is below its upper edge at every rate. */
  lemma MidBandOrdered(rate: nat)
    requires rate > 0
    ensures 0.0 < NormalisedCutoff(BassCutoff, rate) < NormalisedCutoff(MidCutoff, rate)
  {
    var nyq := rate as real / 2.0;
    var lo := BassCutoff / nyq;
    var hi := MidCutoff / nyq;
    assert hi - lo == (MidCutoff - BassCutoff) / nyq;
  }

  // ---------------------------------------------------------------------------
  // Filtering and clipping
  // ---------------------------------------------------------------------------

  /** `lfilter(b * gain, a, x)`: one band's filter, its numerator scaled by the band's gain. */
  function FilterStage(c: Coefficients, gain: real, x: seq<real>, lfilter: LFilter): (y: seq<real>)
    ensures |y| == |x|
  {
    lfilter(Scaled(gain, c.b), c.a, x)
  }

  /** `np.clip(x, -1, 1)` on one sample. */
  function ClipSample(x: real): real {
    if x < -1.0 then -1.0 else if x > 1.0 then 1.0 else x
  }

  /** `np.clip(data, -1, 1)`. */
  function Clip(data: seq<real>): (r: seq<real>)
    ensures |r| == |data|
    ensures forall i :: 0 <= i < |r| ==> -1.0 <= r[i] <= 1.0
    ensures forall i :: 0 <= i < |data| ==>
      (data[i] > 1.0 ==> r[i] == 1.0) && (data[i] < -1.0 ==> r[i] == -1.0)
  {
    seq(|data|, i requires 0 <= i < |data| => ClipSample(data[i]))
  }

  /** Samples already in [-1, 1] pass the clip unchanged, and only those do. */
  lemma ClipKeepsInRange(data: seq<real>)
    ensures forall i :: 0 <= i < |data| ==>
      (Clip(data)[i] == data[i] <==> -1.0 <= data[i] <= 1.0)
  {
  }

  /** Clipping twice is clipping once. */
  lemma ClipIdempotent(data: seq<real>)
    ensures Clip(Clip(data)) == Clip(data)
  {
    ClipKeepsInRange(Clip(data));
  }

  // ---------------------------------------------------------------------------
  // Tone stage
  // ---------------------------------------------------------------------------

  /**
   * `apply_tone`: normalise the gains, design the three Butterworth filters
   * and apply them one after another (bass, then mid on the bass output, then
   * treble on the mid output), then clip.
   */
  function ApplyTone(data: seq<real>, rate: nat, gains: Gains, design: Design, lfilter: LFilter)
    : (r: Result<seq<real>, ToneError>)
    ensures r.Success? ==> |r.value| == |data|
    ensures r.Success? ==> forall i :: 0 <= i < |r.value| ==> -1.0 <= r.value[i] <= 1.0
  {
    if rate == 0 then Failure(ZeroDivision)
    else
      var bassWn := NormalisedCutoff(BassCutoff, rate);
      var midWn := NormalisedCutoff(MidCutoff, rate);
      var trebleWn := NormalisedCutoff(TrebleCutoff, rate);
      var low :- Butter(FilterOrder, Single(bassWn), LowPass, design);
      var band :- Butter(FilterOrder, Band(bassWn, midWn), BandPass, design);
      var high :- Butter(FilterOrder, Single(trebleWn), HighPass, design);
      if MaxGain(gains) == 0.0 then Failure(UndefinedGains)
      else
        var g := Normalise(gains);
        var afterBass := FilterStage(low, g.bass, data, lfilter);
        var afterMid := FilterStage(band, g.mid, afterBass, lfilter);
        var afterTreble := FilterStage(high, g.treble, afterMid, lfilter);
        Success(Clip(afterTreble))
  }

  /** When `apply_tone` fails, and with which error. */
  lemma ToneSucceedsIff(data: seq<real>, rate: nat, gains: Gains, design: Design, lfilter: LFilter)
    ensures ApplyTone(data, rate, gains, design, lfilter).Success? <==> rate > 8000 && MaxGain(gains) != 0.0
    ensures rate == 0 ==> ApplyTone(data, rate, gains, design, lfilter) == Failure(ZeroDivision)
    ensures 0 < rate <= 8000 ==> ApplyTone(data, rate, gains, design, lfilter) == Failure(CriticalFrequencyRange)
    ensures rate > 8000 && MaxGain(gains) == 0.0 ==> ApplyTone(data, rate, gains, design, lfilter) == Failure(UndefinedGains)
  {
    if rate > 0 {
      CutoffsValidIff(rate);
      MidBandOrdered(rate);
    }
  }

  /**
   * The output of a successful `apply_tone` is the clipped series cascade
   * treble(mid(bass(x))), each filter designed from the Nyquist-normalised
   * cutoffs and its numerator scaled by the band's normalised gain.
   */
  lemma ToneIsSeriesCascade(data: seq<real>, rate: nat, gains: Gains, design: Design, lfilter: LFilter)
    requires rate > 8000 && MaxGain(gains) != 0.0
    ensures
      var g := Normalise(gains);
      var low := design(FilterOrder, Single(NormalisedCutoff(BassCutoff, rate)), LowPass);
      var band := design(FilterOrder, Band(NormalisedCutoff(BassCutoff, rate), NormalisedCutoff(MidCutoff, rate)), BandPass);
      var high := design(FilterOrder, Single(NormalisedCutoff(TrebleCutoff, rate)), HighPass);
      ApplyTone(data, rate, gains, design, lfilter)
        == Success(Clip(lfilter(Scaled(g.treble, high.b), high.a,
                         lfilter(Scaled(g.mid, band.b), band.a,
                           lfilter(Scaled(g.bass, low.b), low.a, data)))))
  {
    CutoffsValidIff(rate);
    MidBandOrdered(rate);
  }
}
