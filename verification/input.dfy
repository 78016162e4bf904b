/**
 * The playback state (`state_t`) and the input thread that updates it from
 * window events (`input_thread`).
 *
 * Events are values fed one at a time to `Step`; the thread's loop is
 * `RunInput`, which stops consuming events once `quit` is set or when the
 * event source runs dry.
 */
module Input {
  import opened NoteTable

  /**
   * The shared playback record. `quit` and `play` are the C program's 0/1
   * flags, `note` the selected frequency and `key` the last key whose
   * key-down changed the note.
   */
  datatype State = State(quit: bool, play: bool, note: real, key: KeyCode)

  /** The record as the program starts: every field zero. */
  const Initial: State := State(false, false, 0.0, 0)

  /**
   * The window events the input thread distinguishes: a key pressed or
   * released, a mouse button pressed, a request to close the window, and
   * anything else.
   */
  datatype Event =
    | KeyDown(sym: KeyCode)
    | KeyUp(sym: KeyCode)
    | MouseButtonDown
    | QuitRequest
    | OtherEvent

  /** True for the two events that end the program. */
  predicate IsQuitEvent(e: Event)
  {
    e.MouseButtonDown? || e.QuitRequest?
  }

  /** True for key presses and releases. */
  predicate IsKeyEvent(e: Event)
  {
    e.KeyDown? || e.KeyUp?
  }

  /** The selected note is one the table can produce, or the initial 0 Hz. */
  predicate NoteInTable(note: real)
  {
    note == 0.0 || note in Scale
  }

  /**
   * One event handled by the input thread. A key press of a key other than
   * the recorded one applies the table, records the key and starts playing;
   * a release of the recorded key stops playing; a mouse button or a close
   * request sets `quit`.
   */
  function Step(s: State, e: Event): (t: State)
    ensures t.quit <==> s.quit || IsQuitEvent(e)
    ensures t.key != s.key ==> e.KeyDown? && t.key == e.sym
    ensures t.note != s.note ==> e.KeyDown? && e.sym != s.key && Lookup(e.sym).Some?
    ensures t.play != s.play ==> IsKeyEvent(e) && (t.play <==> e.KeyDown?)
    ensures NoteInTable(s.note) ==> NoteInTable(t.note)
    ensures e.KeyDown? && e.sym != s.key ==>
              && t.key == e.sym && t.play && t.quit == s.quit
              && t.note == (if Lookup(e.sym).Some? then Lookup(e.sym).value else s.note)
    ensures e.KeyDown? && e.sym == s.key ==> t == s
    ensures e.KeyUp? && e.sym == s.key ==> t == s.(play := false)
    ensures e.KeyUp? && e.sym != s.key ==> t == s
  {
    match e
    case KeyDown(k) =>
      if s.key != k then s.(note := SetNote(k, s.note), key := k, play := true) else s
    case KeyUp(k) =>
      if s.key == k then s.(play := false) else s
    case MouseButtonDown => s.(quit := true)
    case QuitRequest => s.(quit := true)
    case OtherEvent => s
  }

  /** The state after handling every event of `es` in order. */
  function Steps(s: State, es: seq<Event>): State
  {
    if es == [] then s else Step(Steps(s, es[..|es| - 1]), es[|es| - 1])
  }

  /**
   * The input thread's loop: while `quit` is clear and an event arrives,
   * handle it. Returns the final state and how many events were consumed,
   * which is every event up to and including the first one that set `quit`.
   */
  method RunInput(s0: State, events: seq<Event>) returns (s: State, consumed: nat)
    ensures consumed <= |events|
    ensures s == Steps(s0, events[..consumed])
    ensures consumed < |events| ==> s.quit
    ensures s0.quit ==> consumed == 0
    ensures forall j :: 0 <= j < consumed ==> !Steps(s0, events[..j]).quit
  {
    s := s0;
    consumed := 0;
    while !s.quit && consumed < |events|
      invariant consumed <= |events|
      invariant s == Steps(s0, events[..consumed])
      invariant s0.quit ==> consumed == 0
      invariant forall j :: 0 <= j < consumed ==> !Steps(s0, events[..j]).quit
    {
      assert events[..consumed + 1][..consumed] == events[..consumed];
      s := Step(s, events[consumed]);
      consumed := consumed + 1;
    }
  }

  /** Pressing the i-th playing key, when it is not the recorded key, plays the i-th note of the scale. */
  lemma PlayKeyDown(s: State, i: nat)
    requires i < |PlayRow| && s.key != Code(PlayRow[i])
    ensures Step(s, KeyDown(Code(PlayRow[i]))) == s.(note := Scale[i], key := Code(PlayRow[i]), play := true)
  {
    LookupPlayRow(i);
  }

  /** Key-repeat: pressing the recorded key again changes nothing. */
  lemma RepeatedKeyDownIdempotent(s: State, k: KeyCode)
    ensures Step(Step(s, KeyDown(k)), KeyDown(k)) == Step(s, KeyDown(k))
    ensures Step(s, KeyDown(k)).key == k
  {
  }

  /**
   * A stale release is ignored: after pressing `k1` and then `k2`, releasing
   * `k1` leaves `k2` playing.
   */
  lemma StaleReleaseIgnored(s: State, k1: KeyCode, k2: KeyCode)
    requires k1 != k2
    ensures var t := Steps(s, [KeyDown(k1), KeyDown(k2)]);
            Steps(s, [KeyDown(k1), KeyDown(k2), KeyUp(k1)]) == t && t.play && t.key == k2
  {
    assert [KeyDown(k1), KeyDown(k2), KeyUp(k1)][..2] == [KeyDown(k1), KeyDown(k2)];
    assert [KeyDown(k1), KeyDown(k2)][..1] == [KeyDown(k1)];
    assert [KeyDown(k1)][..0] == [];
  }

  /** Releasing the recorded key stops playing and keeps the note and the key. */
  lemma ReleaseRecordedKey(s: State)
    ensures Step(s, KeyUp(s.key)) == s.(play := false)
  {
  }

  /**
   * The recorded key is never cleared: once `k` is pressed and released,
   * pressing `k` again does not start playing.
   */
  lemma RepressAfterReleaseSilent(s: State, k: KeyCode)
    ensures var t := Steps(s, [KeyDown(k), KeyUp(k), KeyDown(k)]);
            !t.play && t.key == k && t.note == Step(s, KeyDown(k)).note
  {
    assert [KeyDown(k), KeyUp(k), KeyDown(k)][..2] == [KeyDown(k), KeyUp(k)];
    assert [KeyDown(k), KeyUp(k)][..1] == [KeyDown(k)];
    assert [KeyDown(k)][..0] == [];
    var pressed := Step(s, KeyDown(k));
    assert Steps(s, [KeyDown(k)]) == pressed;
    assert Steps(s, [KeyDown(k), KeyUp(k)]) == pressed.(play := false);
  }

  /**
   * The `q` key only selects 0 Hz: it records itself and sets `play`, and it
   * does not set `quit`.
   */
  lemma ZeroNoteKeyDoesNotQuit(s: State)
    requires s.key != Code(ZeroNoteKey)
    ensures Step(s, KeyDown(Code(ZeroNoteKey))) == s.(note := 0.0, key := Code(ZeroNoteKey), play := true)
  {
  }

  /** A key the table does not map still starts playing the previous note. */
  lemma UnmappedKeyPlays(s: State, k: KeyCode)
    requires k != s.key && Lookup(k).None?
    ensures Step(s, KeyDown(k)) == s.(key := k, play := true)
  {
  }

  /** Key events alone never set `quit`. */
  lemma {:induction false} KeyEventsNeverQuit(s: State, es: seq<Event>)
    requires forall i :: 0 <= i < |es| ==> IsKeyEvent(es[i])
    ensures Steps(s, es).quit == s.quit
  {
    if es != [] {
      KeyEventsNeverQuit(s, es[..|es| - 1]);
    }
  }

  /** Once set, `quit` stays set whatever events follow. */
  lemma {:induction false} QuitSticky(s: State, es: seq<Event>)
    requires s.quit
    ensures Steps(s, es).quit
  {
    if es != [] {
      QuitSticky(s, es[..|es| - 1]);
    }
  }

  /** Every note the state ever holds is one the table can produce. */
  lemma {:induction false} NoteStaysInTable(s: State, es: seq<Event>)
    requires NoteInTable(s.note)
    ensures NoteInTable(Steps(s, es).note)
  {
    if es != [] {
      NoteStaysInTable(s, es[..|es| - 1]);
    }
  }
}
