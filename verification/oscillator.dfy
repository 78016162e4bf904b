/**
 * The phase-accumulator sine oscillator (`fill_f32`).
 *
 * For every frame the accumulator advances by 2*pi*note/44100 and is wrapped by
 * subtracting 2*pi once when it reaches 2*pi; the frame's sample is 0.7 times
 * the sine of the new accumulator, written identically into both channels.
 * Arithmetic is on reals, and the sine is a parameter: nothing here depends on
 * how the C library computes it.
 */
module Oscillator {

  /** M_PI, as written in the C headers. */
  const Pi: real := 3.14159265358979323846
  /** M_PI_M2. */
  const TwoPi: real := Pi + Pi
  /** DEFAULT_RATE, in frames per second. */
  const Rate: nat := 44100
  /** DEFAULT_CHANNELS. */
  const Channels: nat := 2
  /** DEFAULT_VOLUME, the gain applied to every sample. */
  const Volume: real := 0.7

  /** Samples written so far and the accumulator after the last frame. */
  datatype Block = Block(samples: seq<real>, acc: real)

  /** True when a note's per-frame phase step is below one full turn. */
  predicate StepBelowTurn(note: real)
  {
    0.0 <= note < Rate as real
  }

  /** True when the accumulator lies in [0, 2*pi). */
  predicate InTurn(acc: real)
  {
    0.0 <= acc < TwoPi
  }

  /** The phase step of one frame at frequency `note`. */
  function Increment(note: real): real
  {
    TwoPi * note / Rate as real
  }

  /**
   * One advance-and-wrap of the accumulator. The wrap is one subtraction of
   * 2*pi, not a remainder, so it keeps the accumulator in [0, 2*pi) only when
   * the step is below one turn.
   */
  function Advance(acc: real, note: real): (a: real)
    ensures a == acc + Increment(note) || a == acc + Increment(note) - TwoPi
    ensures a < acc + Increment(note) <==> acc + Increment(note) >= TwoPi
    ensures InTurn(acc) && StepBelowTurn(note) ==> InTurn(a)
  {
    var next := acc + Increment(note);
    if next >= TwoPi then next - TwoPi else next
  }

  /** The accumulator after `i` frames, starting from `acc`. */
  function Phase(acc: real, note: real, i: nat): real
  {
    if i == 0 then acc else Advance(Phase(acc, note, i - 1), note)
  }

  /** The value written (to every channel) for frame `f`, counting from 0. */
  function Sample(acc: real, note: real, sin: real -> real, f: nat): real
  {
    Volume * sin(Phase(acc, note, f + 1))
  }

  /** One frame: the same value in every channel. */
  function Frame(v: real): (fr: seq<real>)
    ensures |fr| == Channels
    ensures forall c :: 0 <= c < |fr| ==> fr[c] == v
  {
    seq(Channels, _ => v)
  }

  /**
   * The output of `fill_f32` for `n` frames from accumulator `acc`: sample
   * `j` belongs to frame `j / Channels` and holds that frame's value, and the
   * final accumulator is the phase after `n` frames.
   */
  function Fill(acc: real, n: nat, note: real, sin: real -> real): (b: Block)
    ensures |b.samples| == Channels * n
    ensures forall j :: 0 <= j < |b.samples| ==> b.samples[j] == Sample(acc, note, sin, j / Channels)
    ensures b.acc == Phase(acc, note, n)
  {
    if n == 0 then Block([], acc)
    else
      var prev := Fill(acc, n - 1, note, sin);
      var a := Advance(prev.acc, note);
      Block(prev.samples + Frame(Volume * sin(a)), a)
  }

  /**
   * `fill_f32` as the loop it is: per frame, advance and wrap the
   * accumulator, then write the sample into each channel.
   */
  method FillF32(acc0: real, n: nat, note: real, sin: real -> real) returns (dst: seq<real>, acc: real)
    ensures |dst| == Channels * n
    ensures forall j :: 0 <= j < |dst| ==> dst[j] == Sample(acc0, note, sin, j / Channels)
    ensures acc == Phase(acc0, note, n)
  {
    dst := [];
    acc := acc0;
    var i := 0;
    while i < n
      invariant i <= n
      invariant Block(dst, acc) == Fill(acc0, i, note, sin)
    {
      acc := acc + Increment(note);
      if acc >= TwoPi {
        acc := acc - TwoPi;
      }
      var val := sin(acc) * Volume;
      var c := 0;
      var frame := dst;
      while c < Channels
        invariant c <= Channels
        invariant dst == frame + seq(c, _ => val)
      {
        dst := dst + [val];
        c := c + 1;
      }
      i := i + 1;
    }
  }

  /** The accumulator never leaves [0, 2*pi) while the note is below the sample rate. */
  lemma {:induction false} PhaseInTurn(acc: real, note: real, i: nat)
    requires InTurn(acc) && StepBelowTurn(note)
    ensures InTurn(Phase(acc, note, i))
  {
    if i > 0 {
      PhaseInTurn(acc, note, i - 1);
    }
  }

  /** Advancing `n` frames and then `m` more is advancing `n + m` frames. */
  lemma {:induction false} PhaseSplit(acc: real, note: real, n: nat, m: nat)
    ensures Phase(acc, note, n + m) == Phase(Phase(acc, note, n), note, m)
  {
    if m > 0 {
      PhaseSplit(acc, note, n, m - 1);
    }
  }

  /**
   * Phase continuity across calls: filling `n` frames and then `m` frames
   * from where the first call left the accumulator gives the same samples and
   * the same final accumulator as filling `n + m` frames at once.
   */
  lemma {:induction false} FillSplit(acc: real, n: nat, m: nat, note: real, sin: real -> real)
    ensures var first := Fill(acc, n, note, sin);
            var second := Fill(first.acc, m, note, sin);
            Fill(acc, n + m, note, sin) == Block(first.samples + second.samples, second.acc)
  {
    if m > 0 {
      FillSplit(acc, n, m - 1, note, sin);
      var first := Fill(acc, n, note, sin);
      var second := Fill(first.acc, m - 1, note, sin);
      assert first.samples + (second.samples + Frame(Volume * sin(Advance(second.acc, note))))
          == (first.samples + second.samples) + Frame(Volume * sin(Advance(second.acc, note)));
    }
  }

  /** At 0 Hz an accumulator inside [0, 2*pi) never moves. */
  lemma {:induction false} ZeroHzPhaseHolds(acc: real, i: nat)
    requires InTurn(acc)
    ensures Phase(acc, 0.0, i) == acc
  {
    if i > 0 {
      ZeroHzPhaseHolds(acc, i - 1);
    }
  }

  /** At 0 Hz every sample written is the same value, 0.7 * sin(acc). */
  lemma ZeroHzFillConstant(acc: real, n: nat, sin: real -> real)
    requires InTurn(acc)
    ensures forall j :: 0 <= j < |Fill(acc, n, 0.0, sin).samples| ==>
              Fill(acc, n, 0.0, sin).samples[j] == Volume * sin(acc)
    ensures Fill(acc, n, 0.0, sin).acc == acc
  {
    var b := Fill(acc, n, 0.0, sin);
    forall j | 0 <= j < |b.samples|
      ensures b.samples[j] == Volume * sin(acc)
    {
      ZeroHzPhaseHolds(acc, j / Channels + 1);
    }
    ZeroHzPhaseHolds(acc, n);
  }

  /**
   * If the sine the host links against stays within [-1, 1], no sample
   * exceeds the gain in magnitude.
   */
  lemma FillBounded(acc: real, n: nat, note: real, sin: real -> real)
    requires forall x :: -1.0 <= sin(x) <= 1.0
    ensures forall j :: 0 <= j < |Fill(acc, n, note, sin).samples| ==>
              -Volume <= Fill(acc, n, note, sin).samples[j] <= Volume
  {
    var b := Fill(acc, n, note, sin);
    forall j | 0 <= j < |b.samples|
      ensures -Volume <= b.samples[j] <= Volume
    {
      var x := Phase(acc, note, j / Channels + 1);
      assert b.samples[j] == Volume * sin(x);
      assert -1.0 <= sin(x) <= 1.0;
    }
  }
}
