/**
 * The voice lifecycle of `AudioUnitMIDISynth`: the record of the pitches
 * currently sounding and the MIDI channel-voice events sent to the
 * synthesizer unit. Each `MusicDeviceMIDIEvent` call is one Event appended
 * to `log`; the audio unit itself is not modelled.
 */
module Synth {
  import opened Wrappers
  import opened ResourceManager
  import opened ChordResolver

  /** Everything is sent on MIDI channel 0. */
  const Channel := 0

  // Status bytes of the MIDI 1.0 channel-voice messages (the source writes
  // `0x80 | channel`; with a channel below 16 the OR is an addition).
  const NoteOffCommand := 0x80 + Channel
  const NoteOnCommand := 0x90 + Channel
  const ProgramChangeCommand := 0xC0 + Channel

  /** The program (instrument) re-selected before every note: 0, a piano. */
  const Patch := 0
  const NoteOnVelocity := 64
  const NoteOffVelocity := 127

  /** One MIDI channel-voice message as handed to the synthesizer. */
  datatype Event =
    | NoteOff(status: int, pitch: int, velocity: int)
    | NoteOn(status: int, pitch: int, velocity: int)
    | ProgramChange(status: int, program: int)

  /** The messages `playPatchOff` sends: one note-off per pitch, in order. */
  function NoteOffs(ps: seq<int>): (r: seq<Event>)
    ensures |r| == |ps|
    ensures forall i :: 0 <= i < |ps| ==> r[i] == NoteOff(NoteOffCommand, ps[i], NoteOffVelocity)
  {
    if ps == [] then []
    else NoteOffs(ps[..|ps| - 1]) + [NoteOff(NoteOffCommand, ps[|ps| - 1], NoteOffVelocity)]
  }

  /**
   * The messages `playPatchOn` sends for its new pitches: per pitch, in
   * order, a program change immediately followed by a note-on. None of them
   * is a note-off.
   */
  function SoundEvents(ps: seq<int>): (r: seq<Event>)
    ensures |r| == 2 * |ps|
    ensures forall i :: 0 <= i < |ps| ==>
      r[2 * i] == ProgramChange(ProgramChangeCommand, Patch) &&
      r[2 * i + 1] == NoteOn(NoteOnCommand, ps[i], NoteOnVelocity)
    ensures forall j :: 0 <= j < |r| ==> !r[j].NoteOff?
  {
    if ps == [] then []
    else
      SoundEvents(ps[..|ps| - 1]) +
      [ProgramChange(ProgramChangeCommand, Patch), NoteOn(NoteOnCommand, ps[|ps| - 1], NoteOnVelocity)]
  }

  /**
   * In what one `playPatchOn` sends, the note-offs for the previous pitches
   * come first and are the only note-offs: an event is a note-off exactly
   * when it lies in that first block.
   */
  lemma SilenceBeforeSound(previous: seq<int>, next: seq<int>)
    ensures var t := NoteOffs(previous) + SoundEvents(next);
      |t| == |previous| + 2 * |next| &&
      forall j :: 0 <= j < |t| ==> (t[j].NoteOff? <==> j < |previous|)
  {
    NoteOffsFirst(NoteOffs(previous), SoundEvents(next));
  }

  /** Note-offs followed by events that are not: the note-offs are exactly the first block. */
  lemma NoteOffsFirst(offs: seq<Event>, ons: seq<Event>)
    requires forall i :: 0 <= i < |offs| ==> offs[i].NoteOff?
    requires forall j :: 0 <= j < |ons| ==> !ons[j].NoteOff?
    ensures forall j :: 0 <= j < |offs + ons| ==> ((offs + ons)[j].NoteOff? <==> j < |offs|)
  {
    forall j | 0 <= j < |offs + ons| ensures (offs + ons)[j].NoteOff? <==> j < |offs| {
      if j < |offs| {
        assert (offs + ons)[j] == offs[j];
      } else {
        assert (offs + ons)[j] == ons[j - |offs|];
      }
    }
  }

  class AudioUnitMIDISynth {
    /** The pitches of the current voice, in the order they were sounded. */
    var pitches: seq<int>
    /** Every MIDI event sent to the synthesizer so far. */
    var log: seq<Event>

    /**
     * Every stored pitch lies in 48..71, which is what makes the source's
     * `UInt32(...)` conversions of table entries safe.
     */
    ghost predicate Valid()
      reads this
    {
      InRange(pitches)
    }

    constructor ()
      ensures Valid() && pitches == [] && log == []
    {
      pitches := [];
      log := [];
    }

    /**
     * Silences the current voice: a note-off for each stored pitch, in
     * order. The record of pitches is kept, so a second call sends the
     * same note-offs again.
     */
    method PlayPatchOff()
      modifies this`log
      ensures log == old(log) + NoteOffs(pitches)
      ensures old(Valid()) ==> Valid()
    {
      for i := 0 to |pitches|
        invariant log == old(log) + NoteOffs(pitches[..i])
      {
        assert pitches[..i + 1][..i] == pitches[..i];
        log := log + [NoteOff(NoteOffCommand, pitches[i], NoteOffVelocity)];
      }
      assert pitches[..|pitches|] == pitches;
    }

    /**
     * Silences the current voice, resolves the new one and sounds it. With
     * no root the new voice is empty and nothing is sounded.
     */
    method PlayPatchOn(bass: Option<string>, chord: Option<string>)
      requires Resolvable(bass, chord)
      modifies this
      ensures Valid()
      ensures pitches == Resolve(bass, chord)
      ensures log == old(log) + NoteOffs(old(pitches)) + SoundEvents(pitches)
    {
      PlayPatchOff();
      ChooseVoice(bass, chord);
      ResolveInRange(bass, chord);
      SoundPitches();
    }

    /**
     * Rebuilds the record of pitches from the root and quality names: the
     * root alone in the key register, or the bass-register root followed by
     * the quality's tones. With no root the record stays empty.
     */
    method ChooseVoice(bass: Option<string>, chord: Option<string>)
      requires Resolvable(bass, chord)
      modifies this`pitches
      ensures pitches == Resolve(bass, chord)
    {
      pitches := [];
      var rootpos := 0;
      if bass.Some? {
        rootpos := RootIndex(bass.value);
        if chord.None? {
          pitches := pitches + [GetMidiKeys()[rootpos]];
        } else {
          pitches := pitches + [GetMidiBass()[rootpos]];
        }
      } else {
        ResolveNoRoot(chord);
        return;
      }
      if chord.Some? {
        var intervals := GetChordIntervals(chord.value);
        ghost var bassRoot := pitches;
        assert bassRoot == [GetMidiBass()[rootpos]];
        AppendChordTones(intervals, rootpos);
        ResolveIsVoicing(bass.value, chord.value);
        assert pitches == bassRoot + KeyStack(intervals, rootpos) == Voicing(intervals, rootpos);
      } else {
        ResolveBareRoot(bass.value);
      }
    }

    /** The `for k in chord` loop: one key-register pitch per interval, appended in order. */
    method AppendChordTones(intervals: seq<int>, rootpos: nat)
      requires rootpos < 12 && WellFormedIntervals(intervals)
      modifies this`pitches
      ensures pitches == old(pitches) + KeyStack(intervals, rootpos)
    {
      for i := 0 to |intervals|
        invariant pitches == old(pitches) + KeyStack(intervals[..i], rootpos)
      {
        var k := intervals[i];
        assert intervals[..i + 1] == intervals[..i] + [k];
        KeyStackSnoc(intervals[..i], k, rootpos);
        pitches := pitches + [GetMidiKeys()[(k + rootpos) % 12]];
      }
      assert intervals[..|intervals|] == intervals;
    }

    /** The `for p in pitches` loop: program change, then note-on, for every stored pitch. */
    method SoundPitches()
      modifies this`log
      ensures log == old(log) + SoundEvents(pitches)
    {
      for i := 0 to |pitches|
        invariant log == old(log) + SoundEvents(pitches[..i])
      {
        assert pitches[..i + 1] == pitches[..i] + [pitches[i]];
        log := log + [ProgramChange(ProgramChangeCommand, Patch)];
        log := log + [NoteOn(NoteOnCommand, pitches[i], NoteOnVelocity)];
      }
      assert pitches[..|pitches|] == pitches;
    }
  }

  /** Silencing twice in a row sends the same note-offs twice and keeps the voice. */
  method SilenceTwice(s: AudioUnitMIDISynth)
    modifies s`log
    ensures s.pitches == old(s.pitches)
    ensures s.log == old(s.log) + NoteOffs(s.pitches) + NoteOffs(s.pitches)
  {
    s.PlayPatchOff();
    s.PlayPatchOff();
  }

  /**
   * Playing with no root still stops the previous voice, then leaves the
   * record empty and sends no program change and no note-on.
   */
  method PlayWithoutRoot(s: AudioUnitMIDISynth, chord: Option<string>)
    modifies s
    ensures s.pitches == []
    ensures s.log == old(s.log) + NoteOffs(old(s.pitches))
  {
    ResolveNoRoot(chord);
    s.PlayPatchOn(None, chord);
  }

  /**
   * Silencing a synthesizer whose record is empty (newly built, or left
   * empty by playing without a root) sends nothing.
   */
  method SilenceWhenSilent(s: AudioUnitMIDISynth)
    requires s.pitches == []
    modifies s`log
    ensures s.log == old(s.log)
  {
    s.PlayPatchOff();
  }

  /**
   * Two chords played one after the other: the first is sounded, then
   * every one of its pitches is stopped before anything of the second is
   * sent.
   */
  method ChangeChord(r1: Option<string>, q1: Option<string>, r2: Option<string>, q2: Option<string>)
    returns (log: seq<Event>)
    requires Resolvable(r1, q1) && Resolvable(r2, q2)
    ensures log == SoundEvents(Resolve(r1, q1)) + NoteOffs(Resolve(r1, q1)) + SoundEvents(Resolve(r2, q2))
  {
    var s := new AudioUnitMIDISynth();
    s.PlayPatchOn(r1, q1);
    ghost var first := s.log;
    assert first == SoundEvents(Resolve(r1, q1));
    s.PlayPatchOn(r2, q2);
    log := s.log;
  }
}
