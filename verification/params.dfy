/**
 * The sound parameter vector of the synthesizer (src/synth/params.rs).
 * Every `f32` field is modelled as a `real`.
 */
module Params {

  /** Base oscillator shape. `Square` is the `#[default]` variant. */
  datatype WaveType = Square | Sine | Sawtooth | Noise

  /** The parameters one sound is synthesized from; no field is range-checked. */
  datatype SynthParams = SynthParams(
    waveType: WaveType,
    pBaseFreq: real,

    pFreqLimit: real,
    pFreqRamp: real,
    pFreqDramp: real,
    pDuty: real,
    pDutyRamp: real,

    pVibStrength: real,
    pVibSpeed: real,
    pVibDelay: real,

    pEnvAttack: real,
    pEnvSustain: real,
    pEnvDecay: real,
    pEnvPunch: real,

    filterOn: bool,
    pLpfResonance: real,
    pLpfFreq: real,
    pLpfRamp: real,
    pHpfFreq: real,
    pHpfRamp: real,

    pPhaOffset: real,
    pPhaRamp: real,

    pRepeatSpeed: real,
    pArpSpeed: real,
    pArpMod: real)

  /**
   * `SynthParams::default()`: a square wave at base frequency 0.3 with a
   * short sustain and decay, the low-pass filter wide open (cut-off 1.0)
   * and every other control at zero.
   */
  function DefaultParams(): (p: SynthParams)
    ensures p.waveType == Square
    ensures p.pBaseFreq == 0.3
    ensures p.pEnvSustain == 0.3 && p.pEnvDecay == 0.4
    ensures p.pLpfFreq == 1.0 && !p.filterOn
    ensures p.pFreqLimit == 0.0 && p.pFreqRamp == 0.0 && p.pFreqDramp == 0.0
    ensures p.pDuty == 0.0 && p.pDutyRamp == 0.0
    ensures p.pVibStrength == 0.0 && p.pVibSpeed == 0.0 && p.pVibDelay == 0.0
    ensures p.pEnvAttack == 0.0 && p.pEnvPunch == 0.0
    ensures p.pLpfResonance == 0.0 && p.pLpfRamp == 0.0
    ensures p.pHpfFreq == 0.0 && p.pHpfRamp == 0.0
    ensures p.pPhaOffset == 0.0 && p.pPhaRamp == 0.0
    ensures p.pRepeatSpeed == 0.0 && p.pArpSpeed == 0.0 && p.pArpMod == 0.0
  {
    SynthParams(
      waveType := Square,
      pBaseFreq := 0.3,
      pFreqLimit := 0.0,
      pFreqRamp := 0.0,
      pFreqDramp := 0.0,
      pDuty := 0.0,
      pDutyRamp := 0.0,
      pVibStrength := 0.0,
      pVibSpeed := 0.0,
      pVibDelay := 0.0,
      pEnvAttack := 0.0,
      pEnvSustain := 0.3,
      pEnvDecay := 0.4,
      pEnvPunch := 0.0,
      filterOn := false,
      pLpfResonance := 0.0,
      pLpfFreq := 1.0,
      pLpfRamp := 0.0,
      pHpfFreq := 0.0,
      pHpfRamp := 0.0,
      pPhaOffset := 0.0,
      pPhaRamp := 0.0,
      pRepeatSpeed := 0.0,
      pArpSpeed := 0.0,
      pArpMod := 0.0)
  }
}
