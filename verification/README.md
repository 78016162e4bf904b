# sin-synth core, modelled in Dafny

A model of the core of `sin-synth.c`, a one-voice sine synthesizer: window key
events choose a note from a fixed one-octave table, and a real-time audio
callback fills output buffers from a phase-accumulator sine oscillator at that
note. The model has five parts, one module each:

- `NoteTable` (`note_table.dfy`): `set_note`, the key-to-frequency table.
  Keys `a w s e d f t g y h u j k` select C4 to C5, `q` selects 0 Hz, and any
  other key leaves the note unchanged.
- `Input` (`input.dfy`): the shared `state_t` record `{quit, play, note, key}`,
  zero at start. `Step` handles one event of the input thread. `RunInput` is
  the thread's loop, which stops once `quit` is set or the events run out.
- `Oscillator` (`oscillator.dfy`): `fill_f32`. Each frame advances the
  accumulator by 2π·note/44100, wraps it by one subtraction of 2π, and writes
  0.7·sin(acc) into both channels. `Fill` is the recursive reference and
  `FillF32` the loop as the C code writes it.
- `Render` (`render.dfy`): `on_process`. It stops the loop on quit, returns
  early while nothing plays, and skips the cycle when there is no buffer or no
  mapped memory. Otherwise it fills `maxsize / (8·32)` frames and writes the
  chunk metadata (offset 0, stride 8, size frames·8).
- `Session` (`session.dfy`): input events and render callbacks interleaved in
  any order on one state. It proves what holds of every reachable state.

`Wrappers` (`wrappers.dfy`) holds the `Option` type. It stands for a pointer
that may be null.

Conventions:
- Key codes are integers. A letter's key code is its ASCII code.
- Frequencies, the accumulator and samples are reals.
- `M_PI` is the decimal literal 3.14159265358979323846.
- The sine function is a parameter `sin: real -> real`, so no property depends
  on how the C library computes it.
- The host's buffer is a `Buffer`: a 32-bit byte capacity `maxsize`, plus
  either no data (a null pointer) or the floats that the mapped memory holds.
  Their number is `maxsize / 4`.

## Behaviour worth knowing

Some behaviours of the code are easy to misread. A lemma states each:

- `q` selects 0 Hz and starts "playing" that note. It does not quit. Among input events, only
  a mouse-button press or a window-close request sets `quit`
  (`Input.ZeroNoteKeyDoesNotQuit`, `Input.KeyEventsNeverQuit`).
- Pressing an unmapped key still records the key and sets `play`. The
  previous note keeps sounding (`Input.UnmappedKeyPlays`).
- A key-up never clears the recorded key. So if you press a key, release it,
  and press the same key again, playback does not restart
  (`Input.RepressAfterReleaseSilent`).
- After `q`, `play` stays set at 0 Hz. The accumulator then stands still, so
  the callback keeps writing the constant level 0.7·sin(acc), which is zero
  only when sin(acc) is (`Oscillator.ZeroHzFillConstant`).
- When the dequeued buffer has no mapped memory, the callback returns without
  queueing that buffer back: the `NullData` action counts as taking a buffer
  but not as queueing one (`Render.DequeueOnlyWhenPlaying`).
- While nothing plays, the callback writes nothing and the accumulator does
  not advance (`Render.SkippedCycleKeepsPhase`).

## Model

| member | source | states |
|---|---|---|
| `NoteTable.Lookup` | sin-synth.c:68-116 | the table only yields 0 Hz or one of the 13 scale frequencies, all below the sample rate |
| `NoteTable.SetNote` | sin-synth.c:68-116 | `q` gives 0 Hz; the i-th playing key gives the i-th scale frequency; any other key leaves the note unchanged |
| `NoteTable.LookupPlayRow` | sin-synth.c:70-110 | the i-th key of `awsedftgyhujk` selects the i-th frequency of C4..C5 |
| `NoteTable.LookupDefinedIff` | sin-synth.c:70-115 | the table maps exactly the 13 playing keys and `q`; it yields 0 Hz for `q` and for no other key |
| `NoteTable.ScaleAscending` | sin-synth.c:16-28 | the 13 frequencies rise strictly in key order |
| `NoteTable.ScaleSemitones` | sin-synth.c:16-28 | neighbouring frequencies are a tempered semitone apart (ratio between 1.0594 and 1.0595) |
| `Oscillator.Advance` | sin-synth.c:58-60 | the step adds 2π·note/44100 and subtracts 2π once, exactly when the sum reaches 2π; it keeps [0, 2π) when the note is below 44100 Hz |
| `Oscillator.Frame` | sin-synth.c:63-64 | a frame holds one value in each of the 2 channels |
| `Oscillator.Fill` | sin-synth.c:52-66 | n frames give 2·n samples; both samples of frame i equal 0.7·sin of the accumulator after i+1 steps; the final accumulator is the phase after n steps |
| `Oscillator.FillF32` | sin-synth.c:52-66 | the nested frame/channel loop writes exactly the samples and the final accumulator described by the per-frame phase |
| `Oscillator.PhaseInTurn` | sin-synth.c:57-61 | from an accumulator in [0, 2π), with 0 ≤ note < 44100, the accumulator stays in [0, 2π) for any number of frames |
| `Oscillator.PhaseSplit` | sin-synth.c:57-60 | advancing n frames and then m frames equals advancing n+m frames |
| `Oscillator.FillSplit` | sin-synth.c:57-65 | filling n frames and then m frames from where the first fill stopped gives the concatenated samples and final accumulator of one n+m fill |
| `Oscillator.ZeroHzPhaseHolds` | sin-synth.c:58-60 | at 0 Hz an accumulator in [0, 2π) never moves |
| `Oscillator.ZeroHzFillConstant` | sin-synth.c:57-65 | at 0 Hz every sample equals 0.7·sin(acc) and the accumulator is unchanged |
| `Oscillator.FillBounded` | sin-synth.c:62 | if the sine stays within [-1, 1], every sample lies within [-0.7, 0.7] |
| `Input.Step` | sin-synth.c:204-226 | a key-down of a key other than the recorded one records it, sets `play` and applies the table to `note` (kept when the key is unmapped); a key-down of the recorded key changes nothing; a key-up of the recorded key clears `play` only; a key-up of any other key changes nothing; only mouse/quit events set `quit`, and nothing clears it; table notes stay table notes |
| `Input.RunInput` | sin-synth.c:203-228 | the loop consumes events in order up to and including the first one that sets `quit` and none after; it consumes none if `quit` was already set |
| `Input.PlayKeyDown` | sin-synth.c:207-213 | a key-down of the i-th playing key, when it is not the recorded key, sets the note to the i-th scale frequency, records the key and sets `play` |
| `Input.RepeatedKeyDownIdempotent` | sin-synth.c:207-213 | a second key-down of the same key changes nothing |
| `Input.StaleReleaseIgnored` | sin-synth.c:207-219 | after key-down k1, key-down k2, a key-up of k1 leaves k2 recorded and playing |
| `Input.ReleaseRecordedKey` | sin-synth.c:214-219 | a key-up of the recorded key clears `play` only; note and key are kept |
| `Input.RepressAfterReleaseSilent` | sin-synth.c:207-219 | press, release, press of one key ends with `play` clear: the recorded key is never cleared |
| `Input.ZeroNoteKeyDoesNotQuit` | sin-synth.c:111-113 | a key-down of `q` sets the note to 0, records `q`, sets `play` and leaves `quit` alone |
| `Input.UnmappedKeyPlays` | sin-synth.c:207-213 | a key-down of a new unmapped key records it and sets `play`, and the note is kept |
| `Input.KeyEventsNeverQuit` | sin-synth.c:205-220 | any sequence of key events leaves `quit` as it was |
| `Input.QuitSticky` | sin-synth.c:221-224 | once `quit` is set, no event sequence clears it |
| `Input.NoteStaysInTable` | sin-synth.c:207-213 | starting from a table note, every event sequence leaves a table note (0 Hz or a scale frequency) |
| `Render.FrameCount` | sin-synth.c:146-147 | the frame count is the largest n with n·256 ≤ maxsize, and it stays below 2^24 |
| `Render.OnProcess` | sin-synth.c:120-156 | quit → stop the loop; not playing → return before dequeuing; no buffer or null data → skip; in all of these the accumulator is unchanged. Otherwise the chunk is (0, 8, 8·n) with size ≤ maxsize; the first 2·n floats are the oscillator samples, the rest of the buffer is untouched, and the accumulator advances n frames |
| `Render.DequeueOnlyWhenPlaying` | sin-synth.c:128-137 | a buffer is requested exactly when no quit is pending and a note plays |
| `Render.SkippedCycleKeepsPhase` | sin-synth.c:128-144 | every cycle that queues no buffer leaves the accumulator unchanged |
| `Render.CycleKeepsTurn` | sin-synth.c:146-149 | with a table note, a callback keeps the accumulator in [0, 2π) |
| `Render.ConsecutiveCyclesContinuous` | sin-synth.c:146-149 | two consecutive filled cycles on one note write the samples of a single fill over both frame counts, and end at the same accumulator |
| `Session.Perform` | sin-synth.c:128-228 | an input event never moves the accumulator; an event arriving before quit applies the input step; a quit event arriving before quit sets `quit` and nothing else; a callback never changes the playback state, advances the accumulator by the frame count on the fill path and leaves it alone otherwise; once quit, nothing changes |
| `Session.PressedNoteIsRendered` | sin-synth.c:120-226 | pressing the i-th playing key and then running a callback with a mapped buffer records the key, sets `play` and advances the accumulator at the i-th scale frequency for `maxsize / 256` frames |
| `Session.ReleaseStopsRender` | sin-synth.c:133-219 | a key-up of the held key clears `play` only, and the next callback returns without taking a buffer and leaves the accumulator alone |
| `Session.StartIsIdle` | sin-synth.c:40-44 | from the zeroed start, any number of callbacks take no buffer and keep the accumulator at 0, and the first press of the i-th playing key plays the i-th scale note |
| `Session.QuitReachesRender` | sin-synth.c:128-224 | a mouse-button or quit event sets `quit` only, and the next callback stops the loop |
| `Session.RunStaysHealthy` | sin-synth.c:40-44 | from the zeroed state and accumulator 0, every interleaving keeps a table note and an accumulator in [0, 2π) (the accumulator's 0 is the zeroed `struct data` at sin-synth.c:165-167) |
| `Session.QuitIsFinal` | sin-synth.c:128-131 | after quit, further ticks change nothing, and every callback stops the loop |

## Left out

- SDL setup: window creation, `SDL_Init`, `SDL_WaitEvent`, thread creation and `SDL_Quit` are host I/O. Events are an input sequence, and the end of that sequence stands for `SDL_WaitEvent` failing. When `SDL_Init` fails or the window cannot be created (sin-synth.c:240-256), the program sets `quit` before any event and the audio loop stops at its first callback; the model always starts with `quit` clear.
- PipeWire setup: stream creation, format negotiation, the main loop, the dequeue/queue calls and teardown wrap a library whose code is not part of this model. The dequeued buffer is a parameter, and the queue call is the `Queued` action.
- Event kinds: a key event is `KeyDown` or `KeyUp`; the SDL event type is not kept. The C code tests `event.key.state == SDL_PRESSED`, which SDL sets for key-down events only.
- Concurrency: the input thread and the callback share `state` without a lock. The model runs them as sequential steps in any interleaving (`Session`). A torn read of the record is not modelled.
- Floating point: `note` is a C `float`, the accumulator a `double` and samples `float`. The model uses exact reals, so it makes no bit-exact claim.
- Oscillator.FillBounded: the amplitude bound holds only under the stated hypothesis that the sine stays within [-1, 1], because the sine is a parameter.
- Logging: `printf` and `pw_log_warn` only produce output.
- 32-bit integers: `maxsize` is a 32-bit unsigned value (`Uint32`). The frame count, below 2^24, and the chunk size, at most `maxsize`, cannot overflow, so no wrap-around is modelled.
