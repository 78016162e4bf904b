/**
 * The key-to-note table of the synthesizer (`set_note`).
 *
 * Thirteen keys on two adjacent keyboard rows play one chromatic octave from
 * middle C (C4) up to C5; the key `q` selects the note 0 Hz; every other key
 * leaves the current note as it was.
 */
module NoteTable {
  import opened Wrappers

  /** An SDL key code; the keys of letters are their ASCII codes. */
  type KeyCode = int

  const C4: real := 261.63
  const Db4: real := 277.18
  const D4: real := 293.66
  const Eb4: real := 311.13
  const E4: real := 329.63
  const F4: real := 349.23
  const Gb4: real := 369.99
  const G4: real := 392.00
  const Ab4: real := 415.30
  const A4: real := 440.00
  const Bb4: real := 466.16
  const B4: real := 493.88
  const C5: real := 523.25

  /** The playing keys, lowest note first. */
  const PlayRow: string := "awsedftgyhujk"

  /** The frequencies of the playing keys, in the same order as `PlayRow`. */
  const Scale: seq<real> := [C4, Db4, D4, Eb4, E4, F4, Gb4, G4, Ab4, A4, Bb4, B4, C5]

  /** The key that selects the 0 Hz note. */
  const ZeroNoteKey: char := 'q'

  /** The key code of a character key. */
  function Code(c: char): KeyCode
  {
    c as int
  }

  /** True when `k` is one of the thirteen playing keys. */
  predicate IsPlayKey(k: KeyCode)
  {
    exists i :: 0 <= i < |PlayRow| && Code(PlayRow[i]) == k
  }

  /**
   * The table itself: the frequency a key selects, or None for a key the
   * table does not mention.
   */
  function Lookup(k: KeyCode): (r: Option<real>)
    ensures r.Some? ==> 0.0 <= r.value < 44100.0
    ensures r.Some? ==> r.value == 0.0 || r.value in Scale
  {
    if k == Code('a') then Some(C4)
    else if k == Code('w') then Some(Db4)
    else if k == Code('s') then Some(D4)
    else if k == Code('e') then Some(Eb4)
    else if k == Code('d') then Some(E4)
    else if k == Code('f') then Some(F4)
    else if k == Code('t') then Some(Gb4)
    else if k == Code('g') then Some(G4)
    else if k == Code('y') then Some(Ab4)
    else if k == Code('h') then Some(A4)
    else if k == Code('u') then Some(Bb4)
    else if k == Code('j') then Some(B4)
    else if k == Code('k') then Some(C5)
    else if k == Code(ZeroNoteKey) then Some(0.0)
    else None
  }

  /** The note after pressing key `k` while `note` was selected. */
  function SetNote(k: KeyCode, note: real): (r: real)
    ensures k == Code(ZeroNoteKey) ==> r == 0.0
    ensures IsPlayKey(k) ==> r in Scale
    ensures forall i :: 0 <= i < |PlayRow| && Code(PlayRow[i]) == k ==> r == Scale[i]
    ensures !IsPlayKey(k) && k != Code(ZeroNoteKey) ==> r == note
  {
    LookupDefinedIff(k);
    match Lookup(k)
    case Some(f) => f
    case None => note
  }

  /** The i-th playing key selects the i-th frequency of the scale. */
  lemma LookupPlayRow(i: nat)
    requires i < |PlayRow|
    ensures Lookup(Code(PlayRow[i])) == Some(Scale[i])
  {
  }

  /** The table maps exactly the thirteen playing keys and `q`. */
  lemma LookupDefinedIff(k: KeyCode)
    ensures Lookup(k).Some? <==> IsPlayKey(k) || k == Code(ZeroNoteKey)
    ensures Lookup(k) == Some(0.0) <==> k == Code(ZeroNoteKey)
  {
    if Lookup(k).Some? && k != Code(ZeroNoteKey) {
      var i :| 0 <= i < |PlayRow| && Code(PlayRow[i]) == k by {
        PlayKeyWitness(k);
      }
    }
  }

  /** A helper giving the position in `PlayRow` of a key the table maps to a frequency. */
  lemma PlayKeyWitness(k: KeyCode)
    requires Lookup(k).Some? && k != Code(ZeroNoteKey)
    ensures IsPlayKey(k)
  {
    var i := if k == Code('a') then 0 else if k == Code('w') then 1
      else if k == Code('s') then 2 else if k == Code('e') then 3
      else if k == Code('d') then 4 else if k == Code('f') then 5
      else if k == Code('t') then 6 else if k == Code('g') then 7
      else if k == Code('y') then 8 else if k == Code('h') then 9
      else if k == Code('u') then 10 else if k == Code('j') then 11 else 12;
    assert Code(PlayRow[i]) == k;
  }

  /** The scale rises strictly, key by key. */
  lemma ScaleAscending(i: nat, j: nat)
    requires i < j < |Scale|
    ensures Scale[i] < Scale[j]
  {
  }

  /** Neighbouring keys are a tempered semitone apart (ratio 2^(1/12), about 1.05946). */
  lemma ScaleSemitones(i: nat)
    requires i + 1 < |Scale|
    ensures 1.0594 * Scale[i] <= Scale[i + 1] <= 1.0595 * Scale[i]
  {
  }
}
