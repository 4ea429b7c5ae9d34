/**
 The controls of `vst/src/engine/multibandDist.c`: what `MultibandDistSetParam` stores for any
 values it is handed.
 */
module MultibandSettings {
  import opened Reals
  import opened Shapers
  import DelayLine

  const VOICES: nat := 4

  datatype Routing = Split | Parallel

  datatype Settings = Settings(
    routing: Routing, model: Model,
    drive: real, shaperBlend: real, bias: real, shape: real,
    bitStep: real, holdLen: real,
    tilt: real, bandGain: real, mix: real,
    toneA: real, dcR: real,
    chInc: real, chDepth: real, chBase: real, chFeedback: real, chSpread: real, chVoices: int, chMix: real,
    transparent: bool)

  /** The dials, as the caller passes them. */
  datatype Dials = Dials(
    routing: int, model: int,
    drivePct: real, biasPct: real, shapePct: real,
    bits: real, downsamplePct: real, tonePct: real, bandGainPct: real,
    chorusRateHz: real, chorusDepthMs: real, chorusFeedbackPct: real, chorusSpreadPct: real,
    chorusVoices: int, chorusMixPct: real, mixPct: real)

  /** `powf` with bases 10 and 2; only sign and monotonicity are used. */
  datatype Powers = Powers(ten: real -> real, two: real -> real, pi: real) {
    ghost predicate Lawful() {
      && 3.0 < pi < 4.0
      && (forall x, y :: x < y ==> ten(x) < ten(y)) && ten(0.0) == 1.0
      && (forall x, y :: x < y ==> two(x) < two(y)) && two(0.0) == 1.0
    }
  }

  /** The range of every stored value. */
  predicate InRange(s: Settings) {
    && 1.0 <= s.drive && 0.0 <= s.shaperBlend <= 1.0 && -0.5 <= s.bias <= 0.5 && 0.0 <= s.shape <= 1.0
    && 0.0 < s.bitStep <= 1.0 && 1.0 <= s.holdLen <= 32.0
    && -1.0 <= s.tilt <= 1.0 && 0.0 <= s.bandGain <= 2.0 && 0.0 <= s.mix <= 1.0
    && 0.0 < s.toneA < 1.0 && 0.0 < s.dcR < 1.0
    && 0.0 < s.chInc < 1.0 && 0.0 <= s.chFeedback <= 0.9 && 0.0 <= s.chSpread <= 0.5
    && 1 <= s.chVoices <= VOICES && 0.0 <= s.chMix <= 1.0
    && ServableDelays(s)
  }

  /** Every delay between base and base + depth is one the ring can serve. */
  predicate ServableDelays(s: Settings) {
    DelayLine.Servable(s.chBase) && 0.0 <= s.chDepth && DelayLine.Servable(s.chBase + s.chDepth)
  }

  /** The rate the engine assumes when the host reports an implausible one. */
  function Rate(hostFs: int): real {
    if hostFs as real < 8000.0 then 48000.0 else hostFs as real
  }

  function ModelOf(model: int): Model {
    match model
    case 1 => Hard
    case 2 => Tube
    case 3 => Overdrive
    case 4 => Fold
    case 5 => Fuzz
    case 6 => Rectify
    case 7 => Crush
    case _ => Soft
  }

  const SPAN: real := (DelayLine.BUFLEN - 8) as real

  /** Base and depth after the part that does not fit the ring has been taken off the depth, and, if
      that is not enough, off the base. */
  function FitDelays(base: real, depth: real): (real, real) {
    if base + depth > SPAN then
      var over := base + depth - SPAN;
      if depth >= over then (base, depth - over) else (SPAN, 0.0)
    else (base, depth)
  }

  lemma FitDelaysFits(base: real, depth: real)
    requires 2.0 <= base && 0.0 <= depth
    ensures var (b, d) := FitDelays(base, depth);
            2.0 <= b && 0.0 <= d && b + d <= SPAN && (base + depth <= SPAN ==> (b, d) == (base, depth))
  {
  }

  /** `MultibandDistSetParam`. */
  function Configure(pw: Powers, hostFs: int, v: Dials): Settings
    requires pw.Lawful()
  {
    var fs := Rate(hostFs);
    var drivePct := Clamp(v.drivePct, 0.0, 100.0);
    var blend := drivePct * 0.1;
    var shaperBlend := if blend > 1.0 then 1.0 else blend;
    var bias := Clamp(v.biasPct, -100.0, 100.0) * 0.005;
    var (chBase, chDepth) := FitDelays(0.012 * fs, Clamp(v.chorusDepthMs, 0.0, 25.0) * 0.001 * fs);
    var tilt := Clamp(v.tonePct, 0.0, 100.0) * 0.02 - 1.0;
    var bandGain := Clamp(v.bandGainPct, 0.0, 200.0) * 0.01;
    var chMix := Clamp(v.chorusMixPct, 0.0, 100.0) * 0.01;
    var mix := Clamp(v.mixPct, 0.0, 100.0) * 0.01;
    var routing := if v.routing == 1 then Parallel else Split;
    var tc := 2.0 * pw.pi * 900.0 / fs;
    RatesDefined(pw, hostFs);
    StepsDefined(pw, Clamp(v.bits, 1.0, 16.0));
    Settings(
      routing, ModelOf(v.model),
      pw.ten(drivePct * 0.01 * 1.5), shaperBlend, bias, Clamp(v.shapePct, 0.0, 100.0) * 0.01,
      1.0 / pw.two(Clamp(v.bits, 1.0, 16.0) - 1.0), 1.0 + Clamp(v.downsamplePct, 0.0, 100.0) * 0.31,
      tilt, bandGain, mix,
      tc / (1.0 + tc), 1.0 - 126.0 / fs,
      Clamp(v.chorusRateHz, 0.01, 10.0) / fs, chDepth, chBase,
      Clamp(v.chorusFeedbackPct, 0.0, 90.0) * 0.01, Clamp(v.chorusSpreadPct, 0.0, 100.0) * 0.005,
      (if v.chorusVoices < 1 then 1 else if v.chorusVoices > VOICES then VOICES else v.chorusVoices), chMix,
      mix <= 0.0 ||
      (shaperBlend <= 0.0 && chMix <= 0.0001 && Abs(tilt) < 0.000001 && Abs(bandGain - 1.0) < 0.000001 &&
       Abs(bias) < 0.000000001 && routing == Split))
  }

  lemma RatesDefined(pw: Powers, hostFs: int)
    requires pw.Lawful()
    ensures 8000.0 <= Rate(hostFs)
    ensures var tc := 2.0 * pw.pi * 900.0 / Rate(hostFs); 0.0 < tc && 0.0 < tc / (1.0 + tc) < 1.0
    ensures 0.0 < 126.0 / Rate(hostFs) < 1.0
  {
    var fs := Rate(hostFs);
    QuotientAtLeast(2.0 * pw.pi * 900.0, fs, 0.0);
    var tc := 2.0 * pw.pi * 900.0 / fs;
    QuotientAtMost(tc, 1.0 + tc, 1.0);
    QuotientAtLeast(tc, 1.0 + tc, 0.0);
    QuotientAtMost(126.0, fs, 1.0);
    QuotientAtLeast(126.0, fs, 0.0);
  }

  lemma StepsDefined(pw: Powers, bits: real)
    requires pw.Lawful() && 1.0 <= bits
    ensures 1.0 <= pw.two(bits - 1.0) && 0.0 < 1.0 / pw.two(bits - 1.0) <= 1.0
  {
    assert bits - 1.0 == 0.0 || pw.two(0.0) < pw.two(bits - 1.0);
    QuotientAtMost(1.0, pw.two(bits - 1.0), 1.0);
    QuotientAtLeast(1.0, pw.two(bits - 1.0), 0.0);
  }

  lemma ChorusRateInRange(hz: real, fs: real)
    requires 0.01 <= hz <= 10.0 && 8000.0 <= fs
    ensures 0.0 < hz / fs < 1.0
  {
    QuotientAtMost(hz, fs, 1.0);
    QuotientAtLeast(hz, fs, 0.0);
  }

  lemma DepthNonNegative(ms: real, fs: real)
    requires 0.0 <= ms && 0.0 <= fs
    ensures 0.0 <= ms * 0.001 * fs
  {
    ProductNonNegative(ms * 0.001, fs);
  }

  lemma DriveAtLeastOne(pw: Powers, drivePct: real)
    requires pw.Lawful() && 0.0 <= drivePct
    ensures 1.0 <= pw.ten(drivePct * 0.01 * 1.5)
  {
    assert drivePct * 0.01 * 1.5 == 0.0 || pw.ten(0.0) < pw.ten(drivePct * 0.01 * 1.5);
  }

  /** Whatever the dials say and whatever rate the host reports, every stored value is in range. In
      particular base plus modulation stays inside the ring. */
  lemma ConfigureInRange(pw: Powers, hostFs: int, v: Dials)
    requires pw.Lawful()
    ensures InRange(Configure(pw, hostFs, v))
  {
    var fs := Rate(hostFs);
    RatesDefined(pw, hostFs);
    StepsDefined(pw, Clamp(v.bits, 1.0, 16.0));
    ChorusRateInRange(Clamp(v.chorusRateHz, 0.01, 10.0), fs);
    DepthNonNegative(Clamp(v.chorusDepthMs, 0.0, 25.0), fs);
    FitDelaysFits(0.012 * fs, Clamp(v.chorusDepthMs, 0.0, 25.0) * 0.001 * fs);
    DriveAtLeastOne(pw, Clamp(v.drivePct, 0.0, 100.0));
    hide Rate, FitDelays, Powers.Lawful;
  }

  /** From ten percent drive upwards the shaper is fully engaged, below it is not. */
  lemma EngagedFromTenPercent(pw: Powers, hostFs: int, v: Dials)
    requires pw.Lawful()
    ensures Configure(pw, hostFs, v).shaperBlend == 1.0 <==> 10.0 <= v.drivePct
  {
    hide Rate, FitDelays;
    RatesDefined(pw, hostFs);
  }
}
