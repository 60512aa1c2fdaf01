/**
 * The synthesis engine (src/synth.rs): a `Synth` owns a parameter vector and
 * a synthesis state and fills sample buffers from them.
 *
 * The state changes of one output sample are specified by pure functions on
 * `SynthState` values (`ResetState`, `RepeatTick`, `NextState`, `RenderState`),
 * the value written for one sample by `NextValue`;
 * the methods of `Synth` update the object's fields step by step as the
 * source does and are proved equal to those functions.
 *
 * The sine of the source (`(fp * TWO_PI).sin()`) is a parameter `sine`
 * standing for x |-> sin(2 pi x); nothing proved here depends on its values.
 */
module SynthEngine {
  import opened Params
  import opened State
  import opened Arith

  const I32_MAX: int := 0x7fff_ffff
  const I32_MIN: int := -0x8000_0000

  /** `Synth::new` sets the master volume to 0.05 and the sound volume to 0.5; nothing changes them. */
  const MASTER_VOL: real := 0.05
  const SOUND_VOL: real := 0.5

  /** Rust's `x as i32` on a number: truncation toward zero, saturating at the `i32` bounds. */
  function AsI32(x: real): (r: int)
    ensures I32_MIN <= r <= I32_MAX
    ensures 0.0 <= x < I32_MAX as real ==> r as real <= x < r as real + 1.0
    ensures I32_MIN as real < x <= 0.0 ==> r as real - 1.0 < x <= r as real
    ensures I32_MAX as real <= x ==> r == I32_MAX
    ensures x <= I32_MIN as real ==> r == I32_MIN
  {
    if x >= I32_MAX as real then I32_MAX
    else if x <= I32_MIN as real then I32_MIN
    else if x >= 0.0 then x.Floor
    else -((-x).Floor)
  }

  /** Fractional oscillator period, in samples, for a base frequency. */
  function FPeriod(baseFreq: real): (f: real)
    ensures 0.0 < f <= 100000.0
  {
    var d := baseFreq * baseFreq + 0.001;
    assert d >= 0.001;
    100.0 / d
  }

  /** The repeat limit before the `p_repeat_speed == 0` override. */
  function RepeatLimit(repeatSpeed: real): (n: int)
    ensures 32 <= n <= I32_MAX
    ensures 0.0 <= repeatSpeed <= 1.0 ==> n <= 20032
  {
    var g := 1.0 - repeatSpeed;
    assert 0.0 <= g * g;
    assert 0.0 <= g <= 1.0 ==> g * g <= 1.0 by {
      if 0.0 <= g <= 1.0 {
        assert g * g <= g * 1.0;
      }
    }
    AsI32(g * g * 20000.0 + 32.0)
  }

  /**
   * `reset_sample(restart)`: derives the oscillator period and square duty
   * from the parameters. A full reset (`restart == false`) also zeroes the
   * phase and the repeat counter and derives the repeat limit; a restart
   * leaves phase, repeat counter and repeat limit alone. Nothing else of the
   * state is touched.
   */
  function ResetState(p: SynthParams, s: SynthState, restart: bool): SynthState
  {
    var s1 := if restart then s else s.(phase := 0);
    var fperiod := FPeriod(p.pBaseFreq);
    var s2 := s1.(fperiod := fperiod, period := AsI32(fperiod), squareDuty := 0.5 - p.pDuty * 0.5);
    if restart then s2
    else s2.(repTime := 0, repLimit := if p.pRepeatSpeed == 0.0 then 0 else RepeatLimit(p.pRepeatSpeed))
  }

  /**
   * What a full reset and a restart derive, and what each leaves untouched:
   * a restart changes only the fractional and integer period and the square
   * duty; a full reset also zeroes the phase and the repeat counter and sets
   * a repeat limit that is 0 exactly when the repeat speed is 0.
   */
  lemma ResetStateSpec(p: SynthParams, s: SynthState, restart: bool)
    ensures var r := ResetState(p, s, restart);
      r.fperiod == FPeriod(p.pBaseFreq) && r.period == AsI32(r.fperiod) && r.squareDuty == 0.5 - p.pDuty * 0.5
    ensures var r := ResetState(p, s, restart);
      restart ==> r == s.(fperiod := r.fperiod, period := r.period, squareDuty := r.squareDuty)
    ensures var r := ResetState(p, s, restart);
      !restart ==> r == s.(phase := 0, repTime := 0, repLimit := r.repLimit,
                           fperiod := r.fperiod, period := r.period, squareDuty := r.squareDuty)
    ensures var r := ResetState(p, s, restart);
      !restart ==> (r.repLimit == 0 <==> p.pRepeatSpeed == 0.0)
    ensures var r := ResetState(p, s, restart);
      !restart && p.pRepeatSpeed != 0.0 ==> 32 <= r.repLimit
    ensures var r := ResetState(p, s, restart);
      !restart && 0.0 <= p.pRepeatSpeed <= 1.0 ==> r.repLimit <= 20032
  {
  }

  /**
   * The state can produce samples without a division by zero: the period is
   * positive now, and also after any restart the repeat counter can fire.
   */
  predicate Runnable(p: SynthParams, s: SynthState)
  {
    s.period > 0 && (s.repLimit != 0 ==> AsI32(FPeriod(p.pBaseFreq)) > 0)
  }

  /** A full reset leaves a positive period exactly when `base_freq² + 0.001 <= 100`. */
  lemma TriggerRunnable(p: SynthParams, s: SynthState)
    ensures Runnable(p, ResetState(p, s, false)) <==> p.pBaseFreq * p.pBaseFreq + 0.001 <= 100.0
  {
    var d := p.pBaseFreq * p.pBaseFreq + 0.001;
    var f := FPeriod(p.pBaseFreq);
    assert f * d == 100.0;
    ScaleOrder(f, 1.0, d);
    assert f >= 1.0 <==> d <= 100.0;
  }

  /**
   * The repeat counter step at the head of each output sample.
   */
  function RepeatTick(p: SynthParams, s: SynthState): (t: SynthState)
    requires Runnable(p, s)
    ensures Runnable(p, t) && t.repLimit == s.repLimit && t.phase == s.phase
    ensures t.playingSample == s.playingSample
  {
    var s1 := s.(repTime := s.repTime + 1);
    if s1.repLimit != 0 && s1.repTime >= s1.repLimit then ResetState(p, s1.(repTime := 0), true)
    else s1
  }

  /**
   * When a limit is set and the advanced counter reaches it, the counter
   * drops to 0 and a restart reset runs; otherwise, and always without a
   * limit, only the counter advances. A counter below its limit stays below it.
   */
  lemma RepeatTickSpec(p: SynthParams, s: SynthState)
    requires Runnable(p, s)
    ensures var t := RepeatTick(p, s);
      s.repLimit != 0 && s.repTime + 1 >= s.repLimit ==> t.repTime == 0 && t == ResetState(p, s.(repTime := 0), true)
    ensures var t := RepeatTick(p, s);
      s.repLimit == 0 || s.repTime + 1 < s.repLimit ==> t == s.(repTime := s.repTime + 1)
    ensures var t := RepeatTick(p, s); 0 <= s.repTime < s.repLimit ==> 0 <= t.repTime < t.repLimit
  {
  }

  /** One oscillator step: the phase advances by one and wraps at the period. */
  function PhaseStep(phase: int, period: int): (r: int)
    requires period > 0
    ensures 0 <= phase ==> 0 <= r < period
    ensures 0 <= phase < period ==> r == if phase + 1 == period then 0 else phase + 1
  {
    var q := phase + 1;
    if q >= period then q % period else q
  }

  /**
   * The phase after `k` oscillator steps from `phase`, in closed form: it
   * counts up and, once it reaches the period, is taken modulo the period.
   */
  function PhaseAfter(period: int, phase: int, k: nat): (r: int)
    requires period > 0
    ensures 0 <= phase ==> 0 <= r
    ensures 0 <= phase && 0 < k ==> r < period
  {
    if k == 0 || phase + k < period then phase + k else (phase + k) % period
  }

  /** One more oscillator step moves the closed form on by one: `PhaseAfter` is the k-fold `PhaseStep`. */
  lemma PhaseAfterStep(period: int, phase: int, k: nat)
    requires period > 0
    ensures PhaseAfter(period, phase, k + 1) == PhaseStep(PhaseAfter(period, phase, k), period)
  {
    var a := PhaseAfter(period, phase, k);
    if k > 0 && phase + k >= period {
      var q := (phase + k) / period;
      assert phase + k == q * period + a;
      if a + 1 < period {
        ModUnique(phase + k + 1, period, q, a + 1);
      } else {
        ModUnique(phase + k + 1, period, q + 1, 0);
      }
    }
  }

  /** The base waveform sub-sample at a phase within the period. */
  function WaveSample(w: WaveType, phase: int, period: int, squareDuty: real, sine: real -> real): real
    requires period > 0
  {
    var fp := phase as real / period as real;
    match w
    case Sine => sine(fp)
    case Square => if fp < squareDuty then 0.5 else -0.5
    case Sawtooth => 1.0 - fp * 2.0
    case Noise => 0.0
  }

  /**
   * The square sub-sample is +0.5 exactly while `phase/period` is below the
   * duty and -0.5 otherwise.
   */
  lemma SquareShape(phase: int, period: int, squareDuty: real, sine: real -> real)
    requires period > 0
    ensures var r := WaveSample(Square, phase, period, squareDuty, sine);
      (r == 0.5 || r == -0.5) && (r == 0.5 <==> (phase as real) < squareDuty * (period as real))
  {
    var fp := phase as real / period as real;
    assert fp * (period as real) == phase as real;
    ScaleOrder(fp, squareDuty, period as real);
  }

  /**
   * The sawtooth sub-sample is `1 - 2 phase/period`; over one period it
   * falls from 1 towards -1.
   */
  lemma SawtoothShape(phase: int, period: int, squareDuty: real, sine: real -> real)
    requires period > 0
    ensures var r := WaveSample(Sawtooth, phase, period, squareDuty, sine);
      r * (period as real) == (period - 2 * phase) as real
    ensures var r := WaveSample(Sawtooth, phase, period, squareDuty, sine);
      0 <= phase < period ==> -1.0 < r <= 1.0
  {
    var fp := phase as real / period as real;
    assert fp * (period as real) == phase as real;
    ScaleOrder(fp, 1.0, period as real);
    ScaleOrder(fp, 0.0, period as real);
  }

  /** The sum of the waveform values of the first `k` of the 8 oversampled sub-samples. */
  function SubSampleSum(w: WaveType, period: int, squareDuty: real, phase: int, sine: real -> real, k: nat): real
    requires period > 0
    decreases k, period  // a measure with `period` in it keeps the eight steps from being unrolled eagerly
  {
    if k == 0 then 0.0
    else SubSampleSum(w, period, squareDuty, phase, sine, k - 1) + WaveSample(w, PhaseAfter(period, phase, k), period, squareDuty, sine)
  }

  /** Noise sub-samples are never generated, so a noise voice sums to 0. */
  lemma {:induction false} SubSampleSumNoise(period: int, squareDuty: real, phase: int, sine: real -> real, k: nat)
    requires period > 0
    ensures SubSampleSum(Noise, period, squareDuty, phase, sine, k) == 0.0
  {
    if k > 0 {
      SubSampleSumNoise(period, squareDuty, phase, sine, k - 1);
    }
  }

  /** Square sub-samples are +-0.5, so `k` of them sum to at most `k/2` in magnitude. */
  lemma {:induction false} SubSampleSumSquare(period: int, squareDuty: real, phase: int, sine: real -> real, k: nat)
    requires period > 0
    ensures -0.5 * (k as real) <= SubSampleSum(Square, period, squareDuty, phase, sine, k) <= 0.5 * (k as real)
  {
    if k > 0 {
      SubSampleSumSquare(period, squareDuty, phase, sine, k - 1);
      SquareShape(PhaseAfter(period, phase, k), period, squareDuty, sine);
    }
  }

  /** A square wave whose phase stays inside the high part of the duty cycle adds +0.5 per sub-sample. */
  lemma {:induction false} SubSampleSumSquareHigh(period: int, squareDuty: real, phase: int, sine: real -> real, k: nat)
    requires 0 <= phase && phase + k < period
    requires ((phase + k) as real) < squareDuty * (period as real)
    ensures SubSampleSum(Square, period, squareDuty, phase, sine, k) == 0.5 * (k as real)
  {
    if k > 0 {
      assert ((phase + k - 1) as real) < squareDuty * (period as real);
      SubSampleSumSquareHigh(period, squareDuty, phase, sine, k - 1);
      SquareShape(phase + k, period, squareDuty, sine);
    }
  }

  /**
   * Square, sawtooth and noise sub-samples, and sine sub-samples when the
   * sine stays in [-1, 1], lie in [-1, 1]: `k` of them sum to at most `k`
   * in magnitude.
   */
  lemma {:induction false} SubSampleSumBounded(w: WaveType, period: int, squareDuty: real, phase: int, sine: real -> real, k: nat)
    requires period > 0 && 0 <= phase
    requires w == Sine ==> forall x :: -1.0 <= sine(x) <= 1.0
    ensures -(k as real) <= SubSampleSum(w, period, squareDuty, phase, sine, k) <= k as real
  {
    if k > 0 {
      SubSampleSumBounded(w, period, squareDuty, phase, sine, k - 1);
      var ph := PhaseAfter(period, phase, k);
      match w {
        case Square => SquareShape(ph, period, squareDuty, sine);
        case Sawtooth => SawtoothShape(ph, period, squareDuty, sine);
        case Sine =>
        case Noise =>
      }
    }
  }

  /** The output stage: hard clamp to [-1, 1]. */
  function Clamp(x: real): (r: real)
    ensures -1.0 <= r <= 1.0
    ensures -1.0 <= x <= 1.0 ==> r == x
    ensures x > 1.0 ==> r == 1.0
    ensures x < -1.0 ==> r == -1.0
  {
    var y := if x > 1.0 then 1.0 else x;
    if y < -1.0 then -1.0 else y
  }

  /**
   * The average of the 8 sub-samples scaled by the master and the sound
   * volume, clamped to [-1, 1]. With the fixed volumes the clamp never acts
   * on sub-samples in [-1, 1]: their mean is scaled by 1/20.
   */
  function Mix(sum: real): (v: real)
    ensures -1.0 <= v <= 1.0
    ensures -8.0 <= sum <= 8.0 ==> v * 160.0 == sum
  {
    Clamp(sum / 8.0 * MASTER_VOL * (2.0 * SOUND_VOL))
  }

  /** The state after one output sample of a playing voice. */
  function NextState(p: SynthParams, s: SynthState): (t: SynthState)
    requires Runnable(p, s)
    ensures Runnable(p, t) && t.playingSample == s.playingSample
    ensures 0 <= s.phase ==> 0 <= t.phase < t.period
  {
    var r := RepeatTick(p, s);
    r.(phase := PhaseAfter(r.period, r.phase, 8))
  }

  /** The value of one output sample of a playing voice. */
  function NextValue(p: SynthParams, s: SynthState, sine: real -> real): (v: real)
    requires Runnable(p, s)
    ensures -1.0 <= v <= 1.0
  {
    var r := RepeatTick(p, s);
    Mix(SubSampleSum(p.waveType, r.period, r.squareDuty, r.phase, sine, 8))
  }

  /**
   * With the fixed volumes the output clamp never engages for sub-samples in
   * [-1, 1]: the output is the sum of the eight sub-samples divided by 160,
   * i.e. their mean scaled by 1/20.
   */
  lemma NoClipping(p: SynthParams, s: SynthState, sine: real -> real)
    requires Runnable(p, s) && 0 <= s.phase
    requires p.waveType == Sine ==> forall x :: -1.0 <= sine(x) <= 1.0
    ensures var t := RepeatTick(p, s);
      NextValue(p, s, sine) * 160.0 == SubSampleSum(p.waveType, t.period, t.squareDuty, t.phase, sine, 8)
  {
    var t := RepeatTick(p, s);
    SubSampleSumBounded(p.waveType, t.period, t.squareDuty, t.phase, sine, 8);
  }

  /** A square-wave voice outputs at most 1/40 in magnitude. */
  lemma SquareLevel(p: SynthParams, s: SynthState, sine: real -> real)
    requires Runnable(p, s) && p.waveType == Square
    ensures -0.025 <= NextValue(p, s, sine) <= 0.025
  {
    var t := RepeatTick(p, s);
    SubSampleSumSquare(t.period, t.squareDuty, t.phase, sine, 8);
  }

  /** A noise voice writes silence: with its table lookup disabled every output sample is 0.0. */
  lemma NoiseSilent(p: SynthParams, s: SynthState, sine: real -> real)
    requires Runnable(p, s) && p.waveType == Noise
    ensures NextValue(p, s, sine) == 0.0
  {
    var t := RepeatTick(p, s);
    SubSampleSumNoise(t.period, t.squareDuty, t.phase, sine, 8);
  }

  /**
   * The state after `synth_sample(n, buffer)`: it stops at the first sample
   * where `playing_sample` is false.
   */
  function RenderState(p: SynthParams, s: SynthState, n: nat): (t: SynthState)
    requires s.playingSample ==> Runnable(p, s)
    ensures t.playingSample == s.playingSample
    ensures t.playingSample ==> Runnable(p, t)
    decreases n
  {
    if n == 0 then s
    else
      var t := RenderState(p, s, n - 1);
      if !t.playingSample then t else NextState(p, t)
  }

  /** A voice that is not playing keeps its state. */
  lemma {:induction false} RenderIdle(p: SynthParams, s: SynthState, n: nat)
    requires !s.playingSample
    ensures RenderState(p, s, n) == s
  {
    if n > 0 {
      RenderIdle(p, s, n - 1);
    }
  }

  /**
   * Rendering changes only the phase, the repeat counter and what a restart
   * derives (fractional and integer period, square duty); the repeat limit,
   * envelope, filters, phaser and noise table are untouched.
   */
  lemma {:induction false} RenderFrame(p: SynthParams, s: SynthState, n: nat)
    requires s.playingSample ==> Runnable(p, s)
    ensures var t := RenderState(p, s, n);
      t == s.(phase := t.phase, repTime := t.repTime, fperiod := t.fperiod, period := t.period, squareDuty := t.squareDuty)
  {
    if n > 0 {
      RenderFrame(p, s, n - 1);
      var t := RenderState(p, s, n - 1);
      if t.playingSample {
        RepeatTickSpec(p, t);
        ResetStateSpec(p, t.(repTime := 0), true);
      }
    }
  }

  /**
   * With no repeat limit no restart ever runs: the repeat counter counts the
   * samples written and the period and duty stay as they were.
   */
  lemma {:induction false} RenderWithoutRepeat(p: SynthParams, s: SynthState, n: nat)
    requires s.playingSample ==> Runnable(p, s)
    requires s.repLimit == 0
    ensures var t := RenderState(p, s, n);
      t.repLimit == 0 && t.repTime == s.repTime + (if s.playingSample then n else 0) &&
      t.fperiod == s.fperiod && t.period == s.period && t.squareDuty == s.squareDuty
  {
    if n > 0 {
      RenderWithoutRepeat(p, s, n - 1);
      var t := RenderState(p, s, n - 1);
      if t.playingSample {
        RepeatTickSpec(p, t);
      }
    }
  }

  /** After at least one sample the phase lies in [0, period). */
  lemma {:induction false} RenderPhaseInRange(p: SynthParams, s: SynthState, n: nat)
    requires s.playingSample && Runnable(p, s) && 0 <= s.phase && n > 0
    ensures var t := RenderState(p, s, n); 0 <= t.phase < t.period
  {
    if n > 1 {
      RenderPhaseInRange(p, s, n - 1);
    }
  }

  /** A repeat counter below its limit stays below it: it wraps to 0 instead of reaching it. */
  lemma {:induction false} RenderRepeatCounter(p: SynthParams, s: SynthState, n: nat)
    requires s.playingSample ==> Runnable(p, s)
    requires 0 <= s.repTime < s.repLimit
    ensures var t := RenderState(p, s, n); 0 <= t.repTime < t.repLimit
  {
    if n > 0 {
      RenderRepeatCounter(p, s, n - 1);
      var t := RenderState(p, s, n - 1);
      if t.playingSample {
        RepeatTickSpec(p, t);
      }
    }
  }

  /** The integer period of the default parameters is 1098 samples. */
  lemma DefaultPeriod()
    ensures AsI32(FPeriod(DefaultParams().pBaseFreq)) == 1098
  {
    var f := FPeriod(0.3);
    assert f * 0.091 == 100.0;
  }


  /**
   * `buffer[..n]` holds the first `n` samples of a playing voice started in
   * state `s`: sample `k` is the output of the voice after `k` samples.
   */
  ghost predicate Rendered(p: SynthParams, s: SynthState, sine: real -> real, buffer: array<real>, n: nat)
    reads buffer
  {
    s.playingSample && Runnable(p, s) && n <= buffer.Length &&
    forall k {:trigger RenderState(p, s, k)} :: 0 <= k < n ==> buffer[k] == NextValue(p, RenderState(p, s, k), sine)
  }

  /** Every sample a rendering writes lies in [-1, 1]. */
  lemma RenderedBounded(p: SynthParams, s: SynthState, sine: real -> real, buffer: array<real>, n: nat)
    requires Rendered(p, s, sine, buffer, n)
    ensures forall k :: 0 <= k < n ==> -1.0 <= buffer[k] <= 1.0
  {
    forall k | 0 <= k < n
      ensures -1.0 <= buffer[k] <= 1.0
    {
      assert buffer[k] == NextValue(p, RenderState(p, s, k), sine);
    }
  }

  class Synth {
    var params: SynthParams
    var state: SynthState

    /** The phase is never negative and the state's buffers keep their sizes. */
    ghost predicate Valid()
      reads this
    {
      0 <= state.phase && Shaped(state)
    }

    /** `Synth::new`: the given parameters and the default (silent) state. */
    constructor (params: SynthParams)
      ensures Valid()
      ensures this.params == params && state == DefaultState()
    {
      this.params := params;
      state := DefaultState();
    }

    /** `reset_params`: back to the default parameters; the state is untouched. */
    method ResetParams()
      requires Valid()
      modifies this
      ensures Valid()
      ensures params == DefaultParams() && state == old(state)
    {
      params := DefaultParams();
    }

    /** `play_sample`: a full reset, then the voice is playing. */
    method PlaySample()
      requires Valid()
      modifies this
      ensures Valid()
      ensures params == old(params)
      ensures state == ResetState(params, old(state), false).(playingSample := true)
    {
      ResetSample(false);
      state := state.(playingSample := true);
    }

    /** `reset_sample`, updating the state field by field. */
    method ResetSample(restart: bool)
      requires Valid()
      modifies this
      ensures Valid()
      ensures params == old(params)
      ensures state == ResetState(params, old(state), restart)
    {
      if !restart {
        state := state.(phase := 0);
      }
      state := state.(fperiod := FPeriod(params.pBaseFreq));
      state := state.(period := AsI32(state.fperiod));
      state := state.(squareDuty := 0.5 - params.pDuty * 0.5);
      if !restart {
        state := state.(repTime := 0);
        state := state.(repLimit := RepeatLimit(params.pRepeatSpeed));
        if params.pRepeatSpeed == 0.0 {
          state := state.(repLimit := 0);
        }
      }
    }

    /** The repeat counter step at the head of each output sample of `synth_sample`. */
    method RepeatStep()
      requires Valid() && Runnable(params, state)
      modifies this
      ensures Valid() && params == old(params)
      ensures state == RepeatTick(params, old(state))
    {
      state := state.(repTime := state.repTime + 1);
      if state.repLimit != 0 && state.repTime >= state.repLimit {
        state := state.(repTime := 0);
        ResetSample(true);
      }
    }

    /** The 8x oversampling loop of `synth_sample`: advances the phase and sums the sub-samples. */
    method OscillatorSum(sine: real -> real) returns (ssample: real)
      requires Valid() && state.period > 0
      modifies this
      ensures Valid() && params == old(params)
      ensures state == old(state).(phase := PhaseAfter(old(state).period, old(state).phase, 8))
      ensures ssample == SubSampleSum(params.waveType, state.period, state.squareDuty, old(state).phase, sine, 8)
    {
      ghost var s1 := state;
      ssample := 0.0;
      for si := 0 to 8
        invariant Valid() && params == old(params)
        invariant state == s1.(phase := PhaseAfter(s1.period, s1.phase, si))
        invariant ssample == SubSampleSum(params.waveType, s1.period, s1.squareDuty, s1.phase, sine, si)
      {
        PhaseAfterStep(s1.period, s1.phase, si);
        var sample: real := 0.0;
        state := state.(phase := state.phase + 1);
        if state.phase >= state.period {
          state := state.(phase := state.phase % state.period);
          // the noise table is not regenerated: that loop body is empty in the source
        }

        var fp := state.phase as real / state.period as real;
        match params.waveType {
          case Sine =>
            sample := sine(fp);
          case Square =>
            if fp < state.squareDuty {
              sample := 0.5;
            } else {
              sample := -0.5;
            }
          case Sawtooth =>
            sample := 1.0 - fp * 2.0;
          case Noise =>
            // the noise table is never read: the sub-sample stays 0.0
        }
        ssample := ssample + sample;
      }
    }

    /**
     * The body of `synth_sample`'s loop for a playing voice: the repeat
     * counter step, the 8x oversampling and the output stage.
     */
    method NextOutput(sine: real -> real) returns (ssample: real)
      requires Valid() && Runnable(params, state)
      modifies this
      ensures Valid() && params == old(params)
      ensures state == NextState(params, old(state))
      ensures ssample == NextValue(params, old(state), sine)
    {
      RepeatStep();
      ssample := OscillatorSum(sine);
      ghost var sum := ssample;

      ssample := ssample / 8.0 * MASTER_VOL;
      ssample := ssample * (2.0 * SOUND_VOL);
      if ssample > 1.0 {
        ssample := 1.0;
      }
      if ssample < -1.0 {
        ssample := -1.0;
      }
      assert ssample == Mix(sum);
    }

    /**
     * One iteration of `synth_sample`'s loop for a playing voice: after `i`
     * samples, the next output sample goes to `buffer[i]`.
     */
    method WriteNext(buffer: array<real>, i: nat, sine: real -> real, ghost s0: SynthState)
      requires Valid() && state.playingSample && i < buffer.Length
      requires s0.playingSample && Runnable(params, s0)
      requires RenderState(params, s0, i) == state
      modifies this, buffer
      ensures Valid() && params == old(params) && state.playingSample
      ensures RenderState(params, s0, i + 1) == state
      ensures buffer[i] == NextValue(params, old(state), sine)
      ensures forall k :: 0 <= k < buffer.Length && k != i ==> buffer[k] == old(buffer[k])
    {
      var ssample := NextOutput(sine);
      buffer[i] := ssample;
    }

    /**
     * `synth_sample(length, buffer)`: a playing voice writes `length`
     * samples, sample `k` being the output of the voice after `k` samples;
     * a voice that is not playing writes nothing and keeps its state. The
     * entries of `buffer` past those written are unchanged. The source
     * panics on a zero period and on an index past the end of `buffer`; the
     * precondition excludes both.
     */
    method SynthSample(length: nat, buffer: array<real>, sine: real -> real)
      requires Valid()
      requires state.playingSample ==> Runnable(params, state) && length <= buffer.Length
      modifies this, buffer
      ensures Valid()
      ensures params == old(params)
      ensures state == RenderState(params, old(state), length)
      ensures !old(state).playingSample ==> state == old(state)
      ensures old(state).playingSample ==> Rendered(params, old(state), sine, buffer, length)
      ensures forall k :: (if old(state).playingSample then length else 0) <= k < buffer.Length ==> buffer[k] == old(buffer[k])
    {
      ghost var p0, s0 := params, state;
      var i := 0;
      while i < length
        invariant 0 <= i <= length
        invariant Valid() && params == p0
        invariant state.playingSample == s0.playingSample
        invariant i <= buffer.Length && (!s0.playingSample ==> i == 0)
        invariant RenderState(p0, s0, i) == state
        invariant s0.playingSample ==> Rendered(p0, s0, sine, buffer, i)
        invariant forall k :: i <= k < buffer.Length ==> buffer[k] == old(buffer[k])
      {
        if !state.playingSample {
          break;
        }
        WriteNext(buffer, i, sine, s0);
        i := i + 1;
      }
      if !s0.playingSample {
        RenderIdle(p0, s0, length);
      }
    }
  }

  /**
   * Triggering the default parameters and rendering one sample gives a
   * positive square-wave value: eight sub-samples of +0.5 inside the duty
   * cycle, averaged and scaled by 0.05 * 2 * 0.5.
   */
  method FirstSampleOfDefault(sine: real -> real) returns (v: real)
    ensures v == 0.025
  {
    var synth := new Synth(DefaultParams());
    synth.PlaySample();
    DefaultPeriod();
    var buffer := new real[1];
    synth.SynthSample(1, buffer, sine);
    ghost var s := ResetState(DefaultParams(), DefaultState(), false).(playingSample := true);
    assert s.period == 1098 && s.phase == 0 && s.repTime == 0 && s.repLimit == 0 && s.squareDuty == 0.5;
    SubSampleSumSquareHigh(1098, 0.5, 0, sine, 8);
    assert NextValue(DefaultParams(), s, sine) == 0.025;
    v := buffer[0];
  }
}
