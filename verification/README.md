# refexer synthesizer core, modelled in Dafny

refexer generates retro sound effects from a parameter vector. This project
models the part of it that exists as code today:

- the parameter vector `SynthParams` with its defaults (`params.dfy`, module `Params`);
- the synthesis state `SynthState` with its defaults (`state.dfy`, module `State`);
- the engine `Synth` (`synth.dfy`, module `SynthEngine`), which covers:
  - `new`, `reset_params`, `play_sample` and `reset_sample`;
  - the sample loop `synth_sample`: the repeat counter, eight-times oversampling of the square, sine, sawtooth and noise oscillators, and volume scaling with a hard clamp;
- the coin preset recipe `coin_params` (`presets.dfy`, module `Presets`);
- the audio side (`sound.dfy`, module `Sound`):
  - the receiver that plays handed-over sample buffers slot by slot;
  - the output callback `write_data`, which spreads one value per frame over the interleaved channels.

Modelling choices:

- **Numbers.** `f32` and `f64` are `real`.
  - Rust's `as i32` becomes `AsI32`, which truncates toward zero and saturates.
  - The sine `(fp * TWO_PI).sin()` is a function parameter `sine`, standing for x ↦ sin(2πx).
- **The engine.** Its methods update the `Synth` object's fields step by step, as the source does.
  - Each method is proved equal to a pure function on state values: `ResetState`, `RepeatTick`, `NextState`, `RenderState` and `NextValue`.
  - The properties are proved about those functions.
- **The volumes.** `Synth::new` sets the master volume to 0.05 and the sound volume to 0.5, and nothing changes them afterwards. They are therefore the constants `MASTER_VOL` and `SOUND_VOL`.
- **The channel.** The channel into the receiver is modelled by what one `try_recv` returns: `Some(buffer)` or `None`. `write_data` takes one such poll result per frame. The conversion `T::from_sample` is a function parameter.
- **Behaviour of the code as written.** The model follows it throughout:
  - The repeat limit is computed with `as i32`, which truncates rather than rounds.
  - A repeat restart keeps the oscillator phase, because `reset_sample(true)` skips `phase = 0`.
  - Filters, envelope, slides, vibrato, arpeggio and phaser are `TODO` in the code and have no model.
  - The noise oscillator always contributes 0.0, because its table lookup is commented out.
  - `phase %= period` divides by the period, so a base frequency with `base_freq² + 0.001 > 100` gives a zero period and a panic. `SynthSample` requires this away (`Runnable`), and `TriggerRunnable` states exactly which base frequencies are safe.
- **Shared arithmetic.** `arith.dfy` (module `Arith`) holds the integer and real facts the oscillator and the frame layout both use.

## Model

| member | source | states |
|---|---|---|
| Params.DefaultParams | src/synth/params.rs:44-79 | Default vector: Square wave, base frequency 0.3, sustain 0.3, decay 0.4, low-pass cut-off 1.0, filter off, every other control 0 |
| State.DefaultState | src/synth/state.rs:47-87 | Default state: not playing, every counter and accumulator 0, envelope lengths `[0,0,0]`, the 1024-slot phaser buffer and the 32-slot noise table all zero |
| SynthEngine.AsI32 | src/synth.rs:120 | `as i32`: truncation toward zero inside the i32 range (bracketed within 1 on each side of zero), saturation at `i32::MAX` and `i32::MIN` outside it |
| SynthEngine.FPeriod | src/synth.rs:118-119 | The fractional period `100 / (b² + 0.001)` is positive and at most 100000 for every base frequency |
| SynthEngine.RepeatLimit | src/synth.rs:129-130 | `((1 − speed)² · 20000 + 32) as i32` is at least 32 and at most `i32::MAX`; it is at most 20032 for a speed in [0, 1] |
| SynthEngine.ResetState | src/synth.rs:114-135 | `reset_sample` on a state value; it has no `ensures` of its own: what it derives and leaves untouched is proved in `ResetStateSpec`, and when its period is positive in `TriggerRunnable` |
| SynthEngine.ResetStateSpec | src/synth.rs:114-135 | Period, fractional period and duty `0.5 − duty·0.5` are derived from the parameters. A restart changes nothing else. A full reset also zeroes phase and repeat counter and sets a repeat limit that is 0 exactly when the repeat speed is 0, otherwise between 32 and 20032 for speeds in [0, 1] |
| SynthEngine.TriggerRunnable | src/synth.rs:114-120 | After `play_sample`'s full reset the period is positive (no `% 0` panic) if and only if `base_freq² + 0.001 <= 100` |
| SynthEngine.RepeatTick | src/synth.rs:49-53 | The repeat step keeps the state runnable, keeps the repeat limit, the phase and the playing flag |
| SynthEngine.RepeatTickSpec | src/synth.rs:49-53 | When a limit is set and the advanced counter reaches it: counter 0 and a restart reset. Otherwise only the counter advances. A counter below its limit stays below it |
| SynthEngine.PhaseStep | src/synth.rs:61-64 | The advanced phase wraps into `[0, period)`; inside the range it is `phase + 1`, or 0 at the period |
| SynthEngine.PhaseAfter | src/synth.rs:59-64 | The closed-form phase after `k` steps is non-negative, and below the period after at least one step |
| SynthEngine.PhaseAfterStep | src/synth.rs:59-64 | The closed form agrees with iterating the wrap step: `k + 1` steps are `k` steps followed by one `PhaseStep` |
| SynthEngine.WaveSample | src/synth.rs:72-91 | The base waveform `match` for one sub-sample; it has no `ensures` of its own: its square and sawtooth shapes are proved in `SquareShape` and `SawtoothShape`, its noise value in `SubSampleSumNoise` |
| SynthEngine.SquareShape | src/synth.rs:78-84 | A square sub-sample is ±0.5, and +0.5 exactly when `phase < duty · period` |
| SynthEngine.SawtoothShape | src/synth.rs:85-87 | A sawtooth sub-sample is `1 − 2·phase/period`, and lies in (−1, 1] for a phase in range |
| SynthEngine.SubSampleSum | src/synth.rs:57-98 | The sum of the first `k` of the eight oversampled sub-samples; it has no `ensures` of its own: its values are proved in the `SubSampleSum*` lemmas, and `Synth.OscillatorSum` proves the loop computes it |
| SynthEngine.SubSampleSumNoise | src/synth.rs:88-90 | With the table lookup disabled, the noise oscillator sums to 0 |
| SynthEngine.SubSampleSumSquare | src/synth.rs:78-97 | `k` square sub-samples sum to a value within ±0.5·k |
| SynthEngine.SubSampleSumSquareHigh | src/synth.rs:59-97 | While the phase stays below the duty point and does not wrap, the `k` square sub-samples sum to exactly 0.5·k |
| SynthEngine.SubSampleSumBounded | src/synth.rs:57-98 | With a sine bounded by 1, the `k` sub-samples of any waveform sum to a value within ±k |
| SynthEngine.Clamp | src/synth.rs:103-108 | The clamp lands in [−1, 1], keeps values already inside, and maps the overshoots to the nearest bound |
| SynthEngine.Mix | src/synth.rs:100-108 | `sum / 8 · 0.05 · (2 · 0.5)` clamped lies in [−1, 1]; for `|sum| <= 8` no clamping happens and the value is `sum / 160` |
| SynthEngine.NextState | src/synth.rs:49-98 | One output sample keeps the state runnable and the playing flag, and leaves the phase in `[0, period)` |
| SynthEngine.NextValue | src/synth.rs:49-110 | The value written for one output sample lies in [−1, 1] |
| SynthEngine.NoClipping | src/synth.rs:100-108 | With the source's volumes the clamp never engages: the written value is the eight-sub-sample sum divided by 160 |
| SynthEngine.SquareLevel | src/synth.rs:78-108 | A square wave is written with amplitude at most 0.025 |
| SynthEngine.NoiseSilent | src/synth.rs:88-90 | A noise voice writes 0.0 for every output sample |
| SynthEngine.RenderState | src/synth.rs:44-111 | Rendering `n` samples keeps the playing flag and keeps a playing state runnable |
| SynthEngine.RenderIdle | src/synth.rs:44-47 | A state that is not playing renders to itself (the loop breaks at once) |
| SynthEngine.RenderFrame | src/synth.rs:44-111 | Rendering changes only phase, repeat counter, fractional and integer period and square duty; everything else of the state is untouched |
| SynthEngine.RenderWithoutRepeat | src/synth.rs:49-53 | With repeat limit 0 no restart ever happens: the counter grows by one per sample and period, fractional period and duty stay fixed |
| SynthEngine.RenderPhaseInRange | src/synth.rs:59-64 | After at least one sample the phase lies in `[0, period)` |
| SynthEngine.RenderRepeatCounter | src/synth.rs:49-53 | A repeat counter below its non-zero limit stays in `[0, limit)` however many samples are rendered |
| SynthEngine.DefaultPeriod | src/synth.rs:118-120 | The default base frequency 0.3 gives the integer period 1098 |
| SynthEngine.RenderedBounded | src/synth.rs:100-110 | Every sample written into the buffer lies in [−1, 1] |
| SynthEngine.Synth.constructor | src/synth.rs:22-32 | `Synth::new` keeps the given parameters and starts from the default state |
| SynthEngine.Synth.ResetParams | src/synth.rs:34-36 | The parameters become the defaults; the state is untouched |
| SynthEngine.Synth.PlaySample | src/synth.rs:38-41 | A full reset, then the playing flag is set; the parameters are untouched |
| SynthEngine.Synth.ResetSample | src/synth.rs:114-135 | The field updates in place equal `ResetState` of the old state |
| SynthEngine.Synth.RepeatStep | src/synth.rs:49-53 | The in-place counter step and restart equal `RepeatTick` of the old state |
| SynthEngine.Synth.OscillatorSum | src/synth.rs:57-98 | The eight-step loop advances the phase to `PhaseAfter(period, phase, 8)` and returns the sum of the eight sub-samples it visits; nothing else changes |
| SynthEngine.Synth.NextOutput | src/synth.rs:49-108 | One output sample moves the state to `NextState` and returns `NextValue` |
| SynthEngine.Synth.WriteNext | src/synth.rs:49-110 | Writes sample `i` of a render: the state advances one step of `RenderState`, `buffer[i]` gets `NextValue`, and no other slot changes |
| SynthEngine.Synth.SynthSample | src/synth.rs:43-112 | A playing synth writes the first `length` slots with the successive `NextValue`s of the rendered states and ends in `RenderState(…, length)`. A synth that is not playing changes nothing. Slots past what was written keep their contents |
| SynthEngine.FirstSampleOfDefault | src/synth.rs:22-112 | Default parameters, `play_sample`, then one sample: the first value written is 0.025 |
| Presets.CoinParams | src/synth/presets.rs:15-32 | Base frequency in [0.4, 0.9), attack 0, sustain in [0, 0.1), decay in [0.1, 0.5), punch in [0.3, 0.6). On heads: arpeggio speed in [0.5, 0.7) and modulation in [0.2, 0.6); on tails both stay 0. Every other field is the default |
| Presets.CoinPlayable | src/synth/presets.rs:19 | A coin base frequency always leaves a positive period after `play_sample`'s reset |
| Presets.CoinSound | src/main.rs:61-84 | The demo path: coin parameters, `Synth::new`, `play_sample`, then one buffer of `length` samples from `synth_sample`. The buffer has `length` slots and every one lies in [−1, 1] |
| Sound.Pull | src/sound.rs:89-107 | A handed-over buffer replaces the current one and is played from slot 0. Otherwise the next slot is played, or 0.0 once the buffer is used up, with no state change. The position never passes the end of the buffer |
| Sound.Drain | src/sound.rs:73-74 | One value per poll, and the position stays within the buffer |
| Sound.DrainAppend | src/sound.rs:73-74 | Successive polls compose: draining `a + b` is draining `a`, then `b` from where it stopped |
| Sound.DrainIdle | src/sound.rs:97-104 | Without a handover the receiver plays the rest of its buffer slot by slot, then silence, and stops at the end of the buffer |
| Sound.PlaybackStep | src/sound.rs:97-104 | Playing `n + 1` slots is one `synth_sample` step followed by `n` from the new position |
| Sound.HandoverPlaysBuffer | src/sound.rs:92-104 | After a handover the new buffer is played from its first slot, whatever was playing before, followed by silence |
| Sound.FrameCount | src/sound.rs:73 | `chunks_mut(channels)` on `len` slots has a frame starting at `f · channels` exactly when `f < ⌈len / channels⌉` |
| Sound.SynthReceiver.constructor | src/sound.rs:53-57 | A new receiver has an empty buffer at position 0 |
| Sound.SynthReceiver.SynthSample | src/sound.rs:89-107 | The in-place update and the returned value equal `Pull` |
| Sound.FillFrame | src/sound.rs:77-79 | Every slot of the frame gets the value; no other slot changes |
| Sound.WriteData | src/sound.rs:69-81 | The receiver is polled once per frame, in order, and ends at `Drain`'s position. Slot `k` of the output holds the converted value of frame `k / channels`; the last frame may be partial |

## Left out

- Random numbers: `coin_params` draws from an OS-seeded generator. `Presets.CoinParams` takes the four uniform draws, the coin flip and the two arpeggio draws as inputs instead. On tails the two arpeggio draws are unused. The engine's own `rng` field is never read and is not modelled.
- The unused `SoundType` enumeration is declared but has no operation.
- Audio devices and streams: `stream_setup`, `host_device_setup` and `make_stream` (cpal) are I/O and are not modelled. So are the GUI and CLI binaries.
- Concurrency: the mpsc channel and the audio thread are not modelled. Each poll's outcome is an input.
- Floating point: all arithmetic is exact real arithmetic. `f32` rounding, NaN and infinities are not modelled. The sine is an arbitrary function parameter; `NoClipping` and `SubSampleSumBounded` assume it stays within [−1, 1].
- SynthEngine.Synth.SynthSample: requires `Runnable` (a positive period, also after any restart) and `length <= buffer.len()` for a playing synth. These exclude the source's panics on `phase %= 0` and on an out-of-bounds `buffer[i]`; the panics themselves are not modelled.
- SynthEngine.RenderState: `rep_time` and `phase` are unbounded integers. An `i32` overflow of `rep_time` after 2³¹ samples without a repeat limit is not modelled.
- The `TODO` stubs of `synth_sample` and `reset_sample` (filters, phaser, envelope, slides, vibrato, arpeggio, noise table refill) have no code and so no model. The empty 32-step noise loop is dropped.
- Sound.WriteData: `chunks_mut(0)` panics, so `channels > 0` is required. The number of polls supplied must equal the number of frames.
