/**
 * The per-voice synthesis state (src/synth/state.rs). Fixed-size Rust arrays
 * become sequences whose lengths `Shaped` pins; `f32`/`f64` become `real`
 * and `i32` becomes `int`.
 */
module State {

  /** Slots in the phaser delay line. */
  const PHASER_LENGTH: nat := 1024
  /** Slots in the noise table. */
  const NOISE_LENGTH: nat := 32
  /** Envelope stages with a length (attack, sustain, decay). */
  const ENV_STAGES: nat := 3

  datatype SynthState = SynthState(
    playingSample: bool,
    phase: int,
    repTime: int,
    repLimit: int,

    arpTime: int,
    arpLimit: int,
    arpMod: real,

    fperiod: real,
    period: int,
    fmaxperiod: real,
    fslide: real,
    fdslide: real,

    squareDuty: real,
    squareSlide: real,

    fltp: real,
    fltdp: real,
    fltw: real,
    fltwD: real,
    fltdmp: real,
    fltphp: real,
    flthp: real,
    flthpD: real,

    vibPhase: real,
    vibSpeed: real,
    vibAmp: real,

    envVol: real,
    envStage: int,
    envTime: int,
    envLength: seq<int>,

    fphase: real,
    fdphase: real,
    iphase: int,
    ipp: int,
    phaserBuffer: seq<real>,

    noiseBuffer: seq<real>)

  /** The buffers have the lengths of the source's fixed-size arrays. */
  predicate Shaped(s: SynthState)
  {
    |s.envLength| == ENV_STAGES && |s.phaserBuffer| == PHASER_LENGTH && |s.noiseBuffer| == NOISE_LENGTH
  }

  /**
   * `SynthState::default()`: not playing, every counter, accumulator and
   * buffer slot zero.
   */
  function DefaultState(): (s: SynthState)
    ensures Shaped(s)
    ensures !s.playingSample
    ensures s.phase == 0 && s.repTime == 0 && s.repLimit == 0
    ensures s.arpTime == 0 && s.arpLimit == 0 && s.arpMod == 0.0
    ensures s.fperiod == 0.0 && s.period == 0 && s.fmaxperiod == 0.0 && s.fslide == 0.0 && s.fdslide == 0.0
    ensures s.squareDuty == 0.0 && s.squareSlide == 0.0
    ensures s.fltp == 0.0 && s.fltdp == 0.0 && s.fltw == 0.0 && s.fltwD == 0.0 && s.fltdmp == 0.0
    ensures s.fltphp == 0.0 && s.flthp == 0.0 && s.flthpD == 0.0
    ensures s.vibPhase == 0.0 && s.vibSpeed == 0.0 && s.vibAmp == 0.0
    ensures s.envVol == 0.0 && s.envStage == 0 && s.envTime == 0 && s.envLength == [0, 0, 0]
    ensures s.fphase == 0.0 && s.fdphase == 0.0 && s.iphase == 0 && s.ipp == 0
    ensures forall i :: 0 <= i < |s.phaserBuffer| ==> s.phaserBuffer[i] == 0.0
    ensures forall i :: 0 <= i < |s.noiseBuffer| ==> s.noiseBuffer[i] == 0.0
  {
    SynthState(
      playingSample := false,
      phase := 0,
      repTime := 0,
      repLimit := 0,
      arpTime := 0,
      arpLimit := 0,
      arpMod := 0.0,
      fperiod := 0.0,
      period := 0,
      fmaxperiod := 0.0,
      fslide := 0.0,
      fdslide := 0.0,
      squareDuty := 0.0,
      squareSlide := 0.0,
      fltp := 0.0,
      fltdp := 0.0,
      fltw := 0.0,
      fltwD := 0.0,
      fltdmp := 0.0,
      fltphp := 0.0,
      flthp := 0.0,
      flthpD := 0.0,
      vibPhase := 0.0,
      vibSpeed := 0.0,
      vibAmp := 0.0,
      envVol := 0.0,
      envStage := 0,
      envTime := 0,
      envLength := [0, 0, 0],
      fphase := 0.0,
      fdphase := 0.0,
      iphase := 0,
      ipp := 0,
      phaserBuffer := seq(PHASER_LENGTH, _ => 0.0),
      noiseBuffer := seq(NOISE_LENGTH, _ => 0.0))
  }
}
