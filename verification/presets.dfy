/**
 * Sound presets (src/synth/presets.rs). The random source of the recipe is
 * not modelled: each uniform draw in [0, 1) and the coin flip are inputs,
 * taken in the order the recipe draws them.
 */
module Presets {
  import opened Params
  import opened State
  import opened SynthEngine

  /** The kinds of preset sound; declared by the source but not yet used by any recipe. */
  datatype SoundType = PickupCoin | LaserShoot | Explosion | PowerUp | HitHurt | Jump | BlipSelect

  /** A draw of the uniform generator. */
  predicate Unit(u: real)
  {
    0.0 <= u < 1.0
  }

  /**
   * `coin_params`: the default parameters with a base frequency in
   * [0.4, 0.9), no attack, a short sustain, a decay in [0.1, 0.5) and a
   * punch in [0.3, 0.6); on heads also an arpeggio with speed in [0.5, 0.7)
   * and modulation in [0.2, 0.6). Every other field keeps its default.
   */
  method CoinParams(baseDraw: real, sustainDraw: real, decayDraw: real, punchDraw: real,
                    heads: bool, arpSpeedDraw: real, arpModDraw: real) returns (params: SynthParams)
    requires Unit(baseDraw) && Unit(sustainDraw) && Unit(decayDraw) && Unit(punchDraw)
    requires Unit(arpSpeedDraw) && Unit(arpModDraw)
    ensures 0.4 <= params.pBaseFreq < 0.9
    ensures params.pEnvAttack == 0.0
    ensures 0.0 <= params.pEnvSustain < 0.1
    ensures 0.1 <= params.pEnvDecay < 0.5
    ensures 0.3 <= params.pEnvPunch < 0.6
    ensures heads ==> 0.5 <= params.pArpSpeed < 0.7 && 0.2 <= params.pArpMod < 0.6
    ensures !heads ==> params.pArpSpeed == 0.0 && params.pArpMod == 0.0
    ensures params == DefaultParams().(pBaseFreq := params.pBaseFreq, pEnvSustain := params.pEnvSustain,
                                       pEnvDecay := params.pEnvDecay, pEnvPunch := params.pEnvPunch,
                                       pArpSpeed := params.pArpSpeed, pArpMod := params.pArpMod)
  {
    params := DefaultParams().(
      pBaseFreq := 0.4 + baseDraw * 0.5,
      pEnvAttack := 0.0,
      pEnvSustain := sustainDraw * 0.1,
      pEnvDecay := 0.1 + decayDraw * 0.4,
      pEnvPunch := 0.3 + punchDraw * 0.3);

    if heads {
      params := params.(pArpSpeed := 0.5 + arpSpeedDraw * 0.2);
      params := params.(pArpMod := 0.2 + arpModDraw * 0.4);
    }
  }

  /**
   * A sound with a coin's base frequency can always be played: the full
   * reset of `play_sample` leaves a positive period.
   */
  lemma CoinPlayable(p: SynthParams, s: SynthState)
    requires 0.4 <= p.pBaseFreq < 0.9
    ensures Runnable(p, ResetState(p, s, false))
  {
    var b := p.pBaseFreq;
    assert b * b <= b * 0.9;
    TriggerRunnable(p, s);
  }

  /**
   * The path of the demo program: a coin sound is built, a synth is created
   * with it and triggered, and one buffer of `length` samples is rendered.
   * Every rendered sample lies in [-1, 1].
   */
  method CoinSound(baseDraw: real, sustainDraw: real, decayDraw: real, punchDraw: real,
                   heads: bool, arpSpeedDraw: real, arpModDraw: real,
                   length: nat, sine: real -> real) returns (buffer: array<real>)
    requires Unit(baseDraw) && Unit(sustainDraw) && Unit(decayDraw) && Unit(punchDraw)
    requires Unit(arpSpeedDraw) && Unit(arpModDraw)
    ensures buffer.Length == length
    ensures forall k :: 0 <= k < length ==> -1.0 <= buffer[k] <= 1.0
  {
    var params := CoinParams(baseDraw, sustainDraw, decayDraw, punchDraw, heads, arpSpeedDraw, arpModDraw);
    var synth := new Synth(params);
    ghost var s := synth.state;
    synth.PlaySample();
    CoinPlayable(params, s);
    buffer := new real[length](_ => 0.0);
    ghost var s0 := synth.state;
    synth.SynthSample(length, buffer, sine);
    RenderedBounded(params, s0, sine, buffer, length);
  }
}
