/**
 * The real-time render callback (`on_process`): stop the loop on quit, do
 * nothing while no note plays, skip the cycle when the host has no buffer or
 * the buffer has no memory mapped, and otherwise fill as many frames as the
 * chunk sizing allows and hand the buffer back.
 */
module Render {
  import opened Wrappers
  import opened Input
  import opened Oscillator

  /** An unsigned 32-bit quantity, such as a buffer's byte capacity. */
  type Uint32 = x: int | 0 <= x < 0x1_0000_0000

  /** sizeof(float), the bytes of one sample. */
  const SampleBytes: nat := 4
  /** The divisor by which the buffer capacity, in frames, is cut down per cycle. */
  const ChunkDivisor: nat := 32

  /**
   * A buffer handed out by the host: its capacity in bytes and, when memory is
   * mapped, the samples that memory holds (one real per float). A null data
   * pointer is None.
   */
  datatype HostBuffer = HostBuffer(maxsize: Uint32, data: Option<seq<real>>)

  /** A mapped region holds exactly as many floats as fit in its capacity. */
  type Buffer = b: HostBuffer | b.data.Some? ==> |b.data.value| == b.maxsize / SampleBytes
    witness HostBuffer(0, None)

  /** The chunk metadata written with a filled buffer: byte offset, bytes per frame and bytes used. */
  datatype Chunk = Chunk(offset: nat, stride: nat, size: nat)

  /** What one callback did. */
  datatype Action =
    | StopLoop                                   // asked the main loop to quit
    | NotPlaying                                 // returned before asking for a buffer
    | OutOfBuffers                               // the host had no buffer to give
    | NullData                                   // the buffer had no mapped memory
    | Queued(chunk: Chunk, data: seq<real>)      // filled and queued the buffer

  /** The callback's action and the accumulator it leaves behind. */
  datatype Cycle = Cycle(action: Action, acc: real)

  /** Bytes per frame: one float per channel. */
  const Stride: nat := SampleBytes * Channels

  /**
   * Frames filled per cycle: the buffer capacity divided by 32 frames' worth
   * of bytes, rounded down.
   */
  function FrameCount(maxsize: Uint32): (n: nat)
    ensures n * 256 <= maxsize < (n + 1) * 256
    ensures n < 0x100_0000
  {
    maxsize / (Stride * ChunkDivisor)
  }

  /**
   * One callback. `dequeued` is what the host would hand out if asked for a
   * buffer; it is consulted only when a note plays.
   */
  function OnProcess(s: State, acc: real, dequeued: Option<Buffer>, sin: real -> real): (cy: Cycle)
    ensures s.quit ==> cy == Cycle(StopLoop, acc)
    ensures !s.quit && !s.play ==> cy == Cycle(NotPlaying, acc)
    ensures !s.quit && s.play && dequeued.None? ==> cy == Cycle(OutOfBuffers, acc)
    ensures !s.quit && s.play && dequeued.Some? && dequeued.value.data.None? ==> cy == Cycle(NullData, acc)
    ensures cy.action.Queued? <==> !s.quit && s.play && dequeued.Some? && dequeued.value.data.Some?
    ensures cy.action.Queued? ==>
              var n := FrameCount(dequeued.value.maxsize);
              var before := dequeued.value.data.value;
              && cy.action.chunk == Chunk(0, 8, 8 * n)
              && cy.action.chunk.size <= dequeued.value.maxsize
              && |cy.action.data| == |before|
              && Channels * n <= |before|
              && (forall j :: 0 <= j < Channels * n ==> cy.action.data[j] == Sample(acc, s.note, sin, j / Channels))
              && (forall j :: Channels * n <= j < |before| ==> cy.action.data[j] == before[j])
              && cy.acc == Phase(acc, s.note, n)
  {
    if s.quit then Cycle(StopLoop, acc)
    else if !s.play then Cycle(NotPlaying, acc)
    else match dequeued
      case None => Cycle(OutOfBuffers, acc)
      case Some(b) =>
        match b.data
        case None => Cycle(NullData, acc)
        case Some(p) =>
          var n := FrameCount(b.maxsize);
          var filled := Fill(acc, n, s.note, sin);
          var chunk := Chunk(0, Stride, n * Stride);
          Cycle(Queued(chunk, filled.samples + p[|filled.samples|..]), filled.acc)
  }

  /** True when the callback took a buffer from the host. */
  predicate Dequeued(a: Action)
  {
    a.OutOfBuffers? || a.NullData? || a.Queued?
  }

  /** A buffer is requested only while no quit is pending and a note plays. */
  lemma DequeueOnlyWhenPlaying(s: State, acc: real, dequeued: Option<Buffer>, sin: real -> real)
    ensures Dequeued(OnProcess(s, acc, dequeued, sin).action) <==> !s.quit && s.play
  {
  }

  /** Every cycle that does not queue a buffer leaves the accumulator alone. */
  lemma SkippedCycleKeepsPhase(s: State, acc: real, dequeued: Option<Buffer>, sin: real -> real)
    ensures !OnProcess(s, acc, dequeued, sin).action.Queued? ==> OnProcess(s, acc, dequeued, sin).acc == acc
  {
  }

  /**
   * The accumulator stays in [0, 2*pi) across a callback when the selected
   * note is one the table can produce.
   */
  lemma CycleKeepsTurn(s: State, acc: real, dequeued: Option<Buffer>, sin: real -> real)
    requires NoteInTable(s.note) && InTurn(acc)
    ensures InTurn(OnProcess(s, acc, dequeued, sin).acc)
  {
    var cy := OnProcess(s, acc, dequeued, sin);
    if cy.action.Queued? {
      assert StepBelowTurn(s.note);
      PhaseInTurn(acc, s.note, FrameCount(dequeued.value.maxsize));
    }
  }

  /**
   * Two back-to-back cycles on the same note continue one waveform: their
   * samples are those of a single fill over both frame counts.
   */
  lemma ConsecutiveCyclesContinuous(s: State, acc: real, b1: Buffer, b2: Buffer, sin: real -> real)
    requires !s.quit && s.play && b1.data.Some? && b2.data.Some?
    ensures var c1 := OnProcess(s, acc, Some(b1), sin);
            var c2 := OnProcess(s, c1.acc, Some(b2), sin);
            var n1 := FrameCount(b1.maxsize);
            var n2 := FrameCount(b2.maxsize);
            var whole := Fill(acc, n1 + n2, s.note, sin);
            && c1.action.data[..Channels * n1] + c2.action.data[..Channels * n2] == whole.samples
            && c2.acc == whole.acc
  {
    var n1 := FrameCount(b1.maxsize);
    var n2 := FrameCount(b2.maxsize);
    var first := Fill(acc, n1, s.note, sin);
    FillSplit(acc, n1, n2, s.note, sin);
    var c1 := OnProcess(s, acc, Some(b1), sin);
    assert c1.action.data[..Channels * n1] == first.samples;
    var c2 := OnProcess(s, c1.acc, Some(b2), sin);
    assert c2.action.data[..Channels * n2] == Fill(first.acc, n2, s.note, sin).samples;
  }
}
