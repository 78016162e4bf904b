/**
 * The whole program as one sequential trace: input events handled by the
 * input thread interleaved with render callbacks. The two threads share only
 * the playback state; the accumulator belongs to the render side and starts
 * at 0.
 */
module Session {
  import opened Wrappers
  import opened NoteTable
  import opened Input
  import opened Oscillator
  import opened Render

  /** One thing that happens: an input event arrives, or the host asks for audio. */
  datatype Tick = Arrive(event: Event) | Process(dequeued: Option<Buffer>)

  /** The shared playback state and the render side's accumulator. */
  datatype System = System(state: State, acc: real)

  /** The program as it starts. */
  const Start: System := System(Initial, 0.0)

  /**
   * One tick. An event that arrives after `quit` was set is never read: the
   * input loop has exited.
   */
  function Perform(sys: System, t: Tick, sin: real -> real): (next: System)
    ensures t.Arrive? ==> next.acc == sys.acc
    ensures t.Process? ==> next.state == sys.state
    ensures sys.state.quit ==> next == sys
    ensures t.Arrive? && !sys.state.quit ==> next.state == Step(sys.state, t.event)
    ensures t.Arrive? && !sys.state.quit && IsQuitEvent(t.event) ==> next.state == sys.state.(quit := true)
    ensures t.Process? && !sys.state.quit && sys.state.play && t.dequeued.Some? && t.dequeued.value.data.Some? ==>
              next.acc == Phase(sys.acc, sys.state.note, FrameCount(t.dequeued.value.maxsize))
    ensures t.Process? && !(!sys.state.quit && sys.state.play && t.dequeued.Some? && t.dequeued.value.data.Some?) ==>
              next.acc == sys.acc
  {
    match t
    case Arrive(e) =>
      if sys.state.quit then sys else sys.(state := Step(sys.state, e))
    case Process(b) =>
      sys.(acc := OnProcess(sys.state, sys.acc, b, sin).acc)
  }

  /** The system after every tick of `ts`, in order. */
  function Run(sys: System, ts: seq<Tick>, sin: real -> real): System
  {
    if ts == [] then sys else Perform(Run(sys, ts[..|ts| - 1], sin), ts[|ts| - 1], sin)
  }

  /** What holds of every reachable system: a table note and an accumulator in [0, 2*pi). */
  predicate Healthy(sys: System)
  {
    NoteInTable(sys.state.note) && InTurn(sys.acc)
  }

  /** Every state reachable from the start, through any interleaving, is healthy. */
  lemma {:induction false} RunStaysHealthy(ts: seq<Tick>, sin: real -> real)
    ensures Healthy(Run(Start, ts, sin))
  {
    if ts != [] {
      RunStaysHealthy(ts[..|ts| - 1], sin);
      var prev := Run(Start, ts[..|ts| - 1], sin);
      match ts[|ts| - 1]
      case Arrive(e) =>
      case Process(b) =>
        CycleKeepsTurn(prev.state, prev.acc, b, sin);
    }
  }

  /**
   * After a quit event nothing changes any more, and every later callback
   * asks the loop to stop without touching a buffer.
   */
  lemma {:induction false} QuitIsFinal(sys: System, ts: seq<Tick>, sin: real -> real)
    requires sys.state.quit
    ensures Run(sys, ts, sin) == sys
    ensures forall b: Option<Buffer> :: OnProcess(Run(sys, ts, sin).state, Run(sys, ts, sin).acc, b, sin).action == StopLoop
  {
    if ts != [] {
      QuitIsFinal(sys, ts[..|ts| - 1], sin);
    }
  }

  /**
   * A key press reaches the audio: pressing the i-th playing key and then
   * running a callback with a mapped buffer records the key, starts playing,
   * and advances the accumulator at the i-th frequency of the scale.
   */
  lemma PressedNoteIsRendered(sys: System, i: nat, b: Buffer, sin: real -> real)
    requires !sys.state.quit && i < |PlayRow| && sys.state.key != Code(PlayRow[i]) && b.data.Some?
    ensures var r := Run(sys, [Arrive(KeyDown(Code(PlayRow[i]))), Process(Some(b))], sin);
            && r.state == sys.state.(note := Scale[i], key := Code(PlayRow[i]), play := true)
            && r.acc == Phase(sys.acc, Scale[i], FrameCount(b.maxsize))
  {
    var ts := [Arrive(KeyDown(Code(PlayRow[i]))), Process(Some(b))];
    PlayKeyDown(sys.state, i);
    assert ts[..1] == [Arrive(KeyDown(Code(PlayRow[i])))];
    assert ts[..1][..0] == [];
    var mid := Perform(sys, ts[0], sin);
    assert Run(sys, ts[..1], sin) == mid;
    assert mid.state == sys.state.(note := Scale[i], key := Code(PlayRow[i]), play := true);
    assert Run(sys, ts, sin) == Perform(mid, ts[1], sin);
  }

  /** A quit event is seen by the very next callback, which stops the loop. */
  lemma QuitReachesRender(sys: System, e: Event, b: Option<Buffer>, sin: real -> real)
    requires !sys.state.quit && IsQuitEvent(e)
    ensures var r := Perform(sys, Arrive(e), sin);
            && r.state == sys.state.(quit := true)
            && OnProcess(r.state, r.acc, b, sin).action == StopLoop
  {
  }

  /**
   * Releasing the held key reaches the audio: the next callback returns
   * without taking a buffer and the accumulator stays where it was.
   */
  lemma ReleaseStopsRender(sys: System, b: Option<Buffer>, sin: real -> real)
    requires !sys.state.quit
    ensures var r := Run(sys, [Arrive(KeyUp(sys.state.key)), Process(b)], sin);
            && r.state == sys.state.(play := false)
            && r.acc == sys.acc
            && OnProcess(r.state, r.acc, b, sin).action == NotPlaying
  {
    var ts := [Arrive(KeyUp(sys.state.key)), Process(b)];
    assert ts[..1] == [ts[0]];
    assert ts[..1][..0] == [];
    assert Run(sys, ts[..1], sin) == Perform(sys, ts[0], sin);
  }

  /**
   * Before any key is pressed nothing plays: callbacks from the start take no
   * buffer and the accumulator stays at 0, and the first press of any
   * playing key starts its note.
   */
  lemma {:induction false} StartIsIdle(n: nat, b: Option<Buffer>, sin: real -> real, i: nat)
    requires i < |PlayRow|
    ensures var r := Run(Start, seq(n, _ => Process(b)), sin);
            && r == Start
            && OnProcess(r.state, r.acc, b, sin) == Cycle(NotPlaying, 0.0)
            && Step(r.state, KeyDown(Code(PlayRow[i]))) == Initial.(note := Scale[i], key := Code(PlayRow[i]), play := true)
  {
    if n > 0 {
      StartIsIdle(n - 1, b, sin, i);
      assert seq(n, _ => Process(b))[..n - 1] == seq(n - 1, _ => Process(b));
    }
    assert Code(PlayRow[i]) != 0;
    PlayKeyDown(Initial, i);
  }
}
