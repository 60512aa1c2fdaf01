/**
 * The audio side (src/sound.rs): a receiver that plays back the buffers the
 * synthesizer hands over, and the output callback that spreads one value per
 * frame over the interleaved channels. The channel is modelled by what one
 * `try_recv` yields: `Some(buffer)` when a buffer was waiting, `None`
 * otherwise; the sample conversion `T::from_sample` is a function parameter.
 */
module Sound {
  import opened Arith

  datatype Option<T> = None | Some(value: T)

  /** The playback position of a receiver: the buffer it plays and the next slot. */
  datatype Cursor = Cursor(data: seq<real>, index: nat)

  /** The next slot never lies past the end of the buffer. */
  predicate InRange(c: Cursor)
  {
    c.index <= |c.data|
  }

  /**
   * One `synth_sample` call: a handed-over buffer replaces the current one
   * and is played from its start; then the next slot is played, or silence
   * (0.0) once the buffer is used up, in which case nothing moves.
   */
  function Pull(c: Cursor, incoming: Option<seq<real>>): (r: (Cursor, real))
    requires InRange(c)
    ensures InRange(r.0)
    ensures incoming.Some? ==> r.0.data == incoming.value
    ensures incoming.Some? && |incoming.value| > 0 ==> r.0.index == 1 && r.1 == incoming.value[0]
    ensures incoming.Some? && |incoming.value| == 0 ==> r.0.index == 0 && r.1 == 0.0
    ensures incoming.None? && c.index < |c.data| ==> r.0 == Cursor(c.data, c.index + 1) && r.1 == c.data[c.index]
    ensures incoming.None? && c.index == |c.data| ==> r.0 == c && r.1 == 0.0
  {
    var c1 := if incoming.Some? then Cursor(incoming.value, 0) else c;
    if c1.index < |c1.data| then (Cursor(c1.data, c1.index + 1), c1.data[c1.index]) else (c1, 0.0)
  }

  /** `polls.Length` successive `synth_sample` calls: the final position and the values played. */
  function Drain(c: Cursor, polls: seq<Option<seq<real>>>): (r: (Cursor, seq<real>))
    requires InRange(c)
    ensures InRange(r.0) && |r.1| == |polls|
  {
    if |polls| == 0 then (c, [])
    else
      var prev := Drain(c, polls[..|polls| - 1]);
      var next := Pull(prev.0, polls[|polls| - 1]);
      (next.0, prev.1 + [next.1])
  }

  /** No handover at all: `n` polls. */
  function Idle(n: nat): (polls: seq<Option<seq<real>>>)
    ensures |polls| == n && forall k :: 0 <= k < n ==> polls[k] == None
  {
    seq(n, _ => None)
  }

  /** What `n` polls play from `c`: the rest of the buffer, then silence. */
  function Playback(c: Cursor, n: nat): (out: seq<real>)
    ensures |out| == n
  {
    seq(n, k => if 0 <= k && c.index + k < |c.data| then c.data[c.index + k] else 0.0)
  }

  /** Polls run one after another: draining `a + b` is draining `a`, then `b`. */
  lemma {:induction false} DrainAppend(c: Cursor, a: seq<Option<seq<real>>>, b: seq<Option<seq<real>>>)
    requires InRange(c)
    ensures var ra := Drain(c, a); var rb := Drain(ra.0, b);
            Drain(c, a + b) == (rb.0, ra.1 + rb.1)
    decreases |b|
  {
    if |b| == 0 {
      assert a + b == a;
      var ra := Drain(c, a);
      assert Drain(ra.0, b) == (ra.0, []);
      assert ra.1 + [] == ra.1;
    } else {
      var b' := b[..|b| - 1];
      assert (a + b)[..|a + b| - 1] == a + b';
      assert (a + b)[|a + b| - 1] == b[|b| - 1];
      DrainAppend(c, a, b');
      var ra := Drain(c, a);
      var rb' := Drain(ra.0, b');
      var next := Pull(rb'.0, b[|b| - 1]);
      assert Drain(c, a + b) == (next.0, (ra.1 + rb'.1) + [next.1]);
      assert b[..|b| - 1] == b';
      assert Drain(ra.0, b) == (next.0, rb'.1 + [next.1]);
      assert (ra.1 + rb'.1) + [next.1] == ra.1 + (rb'.1 + [next.1]);
    }
  }

  /**
   * Without a handover the receiver plays what is left of its buffer, slot
   * by slot, then silence, and stops at the end of the buffer.
   */
  lemma {:induction false} DrainIdle(c: Cursor, n: nat)
    requires InRange(c)
    ensures Drain(c, Idle(n)).1 == Playback(c, n)
    ensures Drain(c, Idle(n)).0 == Cursor(c.data, if c.index + n <= |c.data| then c.index + n else |c.data|)
  {
    if n > 0 {
      assert Idle(n)[..n - 1] == Idle(n - 1);
      DrainIdle(c, n - 1);
      var prev := Drain(c, Idle(n - 1));
      assert Drain(c, Idle(n)).1 == prev.1 + [Pull(prev.0, None).1];
      assert Playback(c, n) == Playback(c, n - 1) + [Playback(c, n)[n - 1]];
    }
  }

  /** Playing `n + 1` slots is playing one slot, then `n` from where it left off. */
  lemma PlaybackStep(c: Cursor, n: nat)
    requires InRange(c)
    ensures var r := Pull(c, None); Playback(c, n + 1) == [r.1] + Playback(r.0, n)
  {
  }

  /**
   * A handed-over buffer is played from its first slot, whatever was playing
   * before, and is followed by silence once used up.
   */
  lemma HandoverPlaysBuffer(c: Cursor, buffer: seq<real>, n: nat)
    requires InRange(c)
    ensures Drain(c, [Some(buffer)] + Idle(n)).1 == Playback(Cursor(buffer, 0), n + 1)
  {
    var first := Pull(c, Some(buffer));
    var handover := [Some(buffer)];
    assert handover[..|handover| - 1] == [];
    assert Drain(c, handover).1 == Drain(c, []).1 + [first.1];
    DrainAppend(c, handover, Idle(n));
    DrainIdle(first.0, n);
    assert Pull(Cursor(buffer, 0), None) == first;
    PlaybackStep(Cursor(buffer, 0), n);
  }

  /** `k` lies in the frame of `channels` slots that starts at `f * channels`. */
  lemma FrameOf(k: int, channels: int, f: int)
    requires channels > 0 && f * channels <= k < f * channels + channels
    ensures k / channels == f
  {
    var d := k / channels - f;
    assert d * channels == (k - f * channels) - k % channels;
    MulAwayFromZero(d, channels);
  }

  /** `chunks_mut(channels)` on `len` slots yields a chunk starting at `f * channels` exactly when `f` is below the chunk count. */
  lemma FrameCount(len: nat, channels: int, f: nat)
    requires channels > 0
    ensures f < (len + channels - 1) / channels <==> f * channels < len
  {
    var q := (len + channels - 1) / channels;
    FrameOf(len + channels - 1, channels, q);
    MulAwayFromZero(q - f, channels);
    MulAwayFromZero(f - q + 1, channels);
  }

  class SynthReceiver {
    var data: seq<real>
    var index: nat

    ghost predicate Valid()
      reads this
    {
      InRange(Cursor(data, index))
    }

    /** The receiver `make_stream` builds: nothing to play yet. */
    constructor ()
      ensures Valid()
      ensures data == [] && index == 0
    {
      data := [];
      index := 0;
    }

    /** `synth_sample`: take over a waiting buffer, then play its next slot or silence. */
    method SynthSample(incoming: Option<seq<real>>) returns (value: real)
      requires Valid()
      modifies this
      ensures Valid()
      ensures Cursor(data, index) == Pull(Cursor(old(data), old(index)), incoming).0
      ensures value == Pull(Cursor(old(data), old(index)), incoming).1
    {
      match incoming {
        case Some(result) =>
          index := 0;
          data := result;
        case None =>
      }

      value := 0.0;
      if index < |data| {
        value := data[index];
        index := index + 1;
      }
    }
  }

  /** `frame.iter_mut()`: every slot of the frame `[start, end)` gets `value`. */
  method FillFrame<T>(output: array<T>, start: nat, end: nat, value: T)
    requires start <= end <= output.Length
    modifies output
    ensures forall k :: start <= k < end ==> output[k] == value
    ensures forall k :: 0 <= k < output.Length && !(start <= k < end) ==> output[k] == old(output[k])
  {
    for j := start to end
      invariant forall k :: start <= k < j ==> output[k] == value
      invariant forall k :: 0 <= k < output.Length && !(start <= k < j) ==> output[k] == old(output[k])
    {
      output[j] := value;
    }
  }

  /**
   * `write_data`: the output slice is cut into frames of `channels` slots
   * (the last one possibly shorter); each frame polls the receiver once and
   * every slot of the frame gets the converted value. `polls` holds what
   * each poll finds on the channel.
   */
  method WriteData<T>(output: array<T>, channels: nat, synth: SynthReceiver,
                      polls: seq<Option<seq<real>>>, fromSample: real -> T)
    requires channels > 0
    requires |polls| == (output.Length + channels - 1) / channels
    requires synth.Valid()
    modifies output, synth
    ensures synth.Valid()
    ensures Cursor(synth.data, synth.index) == Drain(Cursor(old(synth.data), old(synth.index)), polls).0
    ensures forall k :: 0 <= k < output.Length ==>
              k / channels < |polls| &&
              output[k] == fromSample(Drain(Cursor(old(synth.data), old(synth.index)), polls).1[k / channels])
  {
    ghost var c0 := Cursor(synth.data, synth.index);
    ghost var played: seq<real> := [];
    var f := 0;
    var start := 0;
    while start < output.Length
      invariant 0 <= f <= |polls| && start == f * channels
      invariant synth.Valid()
      invariant (Cursor(synth.data, synth.index), played) == Drain(c0, polls[..f])
      invariant forall k :: 0 <= k < output.Length && k < start ==>
                  k / channels < f && output[k] == fromSample(played[k / channels])
      decreases output.Length - start
    {
      FrameCount(output.Length, channels, f);
      var value := synth.SynthSample(polls[f]);
      assert polls[..f + 1][..f] == polls[..f];
      played := played + [value];

      var end := if start + channels <= output.Length then start + channels else output.Length;
      forall k | start <= k < end
        ensures k / channels == f
      {
        FrameOf(k, channels, f);
      }
      FillFrame(output, start, end, fromSample(value));
      assert (f + 1) * channels == start + channels;
      f := f + 1;
      start := start + channels;
    }
    FrameCount(output.Length, channels, f);
    assert polls[..f] == polls;
  }
}
