# Chording: chord resolution and voice lifecycle

This project models the chord player in `SharedCode.swift` of the chording
playground. It has two parts.

- **Static tables** (module `ResourceManager`):
  - the twelve root names in chromatic order;
  - the catalog of 21 chord qualities, each with its semitone intervals;
  - the two aligned MIDI registers: bass 48..59 and keys 60..71.

  The `ResourceManager` getters return these tables.
- **Chord resolver** (module `ChordResolver`). `Resolve` is the pitch list
  `playPatchOn` builds from an optional root name and an optional quality name:
  - no root gives nothing;
  - a bare root gives the key-register pitch at the root's position;
  - a root with a quality gives the bass-register root, then for each interval
    `k` the key-register pitch at index `(k + rootpos) % 12`.
- **Voice lifecycle** (module `Synth`). The class `AudioUnitMIDISynth` holds:
  - `pitches`, the record of the current voice;
  - `log`, the MIDI channel-voice messages handed to the synthesizer.

  Each `MusicDeviceMIDIEvent` call becomes one `Event` appended to `log`.
  - `PlayPatchOff` sends a Note Off (status 0x80, velocity 127) for every stored
    pitch, in order.
  - `PlayPatchOn` does these steps in order:
    1. silences the old voice;
    2. rebuilds `pitches`;
    3. for every new pitch, sends a Program Change (status 0xC0, program 0), then
       a Note On (status 0x90, velocity 64).

  The messages follow the Channel Voice Messages of the MIDI 1.0 Detailed
  Specification, on channel 0.

The source's three `for` loops are methods with loop invariants:
- `for p in pitches` in `playPatchOff`;
- `for k in chord` in `playPatchOn`;
- `for p in pitches` in `playPatchOn`.

Each is proved against a specification function: `NoteOffs`, `KeyStack` and
`SoundEvents`. The lemmas beside those functions state what the source
promises.

Forced unwraps become preconditions:
- `index(of: bass!)!` at line 178 requires a known root;
- `chord_intervals[chord_style]!` at line 29 requires a known quality, but only
  when a root is given, since the code returns before the lookup otherwise.

Swift's `index(of:)` and the dictionary subscript are modelled as functions that
return an `Option` (`IndexOf`, `Lookup`). The unwraps are applied only under
those preconditions.

`playPatchOff` does not clear `pitches`. The model follows the code: a silenced
voice keeps its record, and silencing it again sends the same note-offs again.

## Model

| member | source | states |
|---|---|---|
| ResourceManager.GetRootNames | SharedCode.swift:6 | the root table has 12 pairwise distinct names, from "C" to "B" |
| ResourceManager.GetMidiBass | SharedCode.swift:14 | the bass register has 12 entries and entry i is MIDI note 48 + i |
| ResourceManager.GetMidiKeys | SharedCode.swift:15 | the key register has 12 entries, each exactly one octave (12) above the bass entry at the same index |
| ResourceManager.IndexOf | SharedCode.swift:178 | `index(of:)`: Some(p) is the first position holding the element; None exactly when no position holds it |
| ResourceManager.RootIndex | SharedCode.swift:178 | for a known root, the position is below 12, holds that name, and is the only position that does |
| ResourceManager.Lookup | SharedCode.swift:29 | the dictionary subscript returns None only when no catalog entry carries the name |
| ResourceManager.LookupFound | SharedCode.swift:29 | a found interval list is the one paired with that name in the catalog |
| ResourceManager.CatalogWellFormed | SharedCode.swift:7-11 | every quality's interval list starts with 0 and has every entry in 0..11 |
| ResourceManager.CatalogNamesDistinct | SharedCode.swift:7-11 | no quality name occurs twice in the catalog, so the dictionary literal is well defined |
| ResourceManager.GetChordIntervals | SharedCode.swift:28-30 | for a known quality, the result starts with 0 and lies in 0..11 |
| ChordResolver.KeyStack | SharedCode.swift:189-191 | the `for k in chord` loop yields one pitch per interval |
| ChordResolver.KeyStackAt | SharedCode.swift:189-191 | the pitch for interval i is the key-register entry at index `(intervals[i] + rootpos) % 12` |
| ChordResolver.KeyStackSnoc | SharedCode.swift:189-191 | one more interval appends exactly one more key-register pitch at the end |
| ChordResolver.Voicing | SharedCode.swift:182-191 | a root with a quality yields 1 + the number of intervals pitches, the first being the bass-register root |
| ChordResolver.VoicingAt | SharedCode.swift:187-191 | pitch i + 1 of the voicing is the key-register entry at `(intervals[i] + rootpos) % 12` |
| ChordResolver.VoicingInRange | SharedCode.swift:182-191 | every table index used is in 0..11, so every voiced pitch lies in 48..71 |
| ChordResolver.VoicingDoublesRoot | SharedCode.swift:182-191 | with the leading interval 0, the second pitch is the first one octave higher |
| ChordResolver.Resolve | SharedCode.swift:175-191 | the pitch list is empty exactly when no root is given; its contents are stated by ResolveNoRoot, ResolveBareRoot, ResolveIsVoicing (with VoicingAt) and ResolveInRange |
| ChordResolver.ResolveNoRoot | SharedCode.swift:184-186 | without a root nothing is resolved, whatever the quality |
| ChordResolver.ResolveBareRoot | SharedCode.swift:176-180 | a bare root resolves to the single key-register pitch at its position, MIDI note 60 + position |
| ChordResolver.ResolveIsVoicing | SharedCode.swift:176-191 | a root with a quality resolves to the quality's voicing on the root's position |
| ChordResolver.ResolveInRange | SharedCode.swift:174-192 | whatever is resolved lies in 48..71 |
| ChordResolver.ChordDoublesRoot | SharedCode.swift:182-191 | a chord has at least two pitches and its second is its bass root one octave up |
| ChordResolver.ResolveDeterminesRoot | SharedCode.swift:176-182 | equal resolved pitch lists with a root come from the same root, and either both have a quality or neither does |
| ChordResolver.MajorVoicingOnC | SharedCode.swift:187-191 | the voicing of [0, 4, 7] at position 0 is [48, 60, 64, 67] |
| ChordResolver.MinorSeventhVoicingOnD | SharedCode.swift:187-191 | the voicing of [0, 3, 7, 10] at position 2 is [50, 62, 65, 69, 60]; the last interval wraps to index 0 |
| ChordResolver.RootD | SharedCode.swift:6 | "D" is a known root at position 2 |
| ChordResolver.QualityMinorSeventh | SharedCode.swift:8 | "m7" is a known quality with intervals [0, 3, 7, 10] |
| ChordResolver.ResolveCMajor | SharedCode.swift:175-191 | root "C" with quality "M" is playable and resolves to [48, 60, 64, 67] |
| ChordResolver.ResolveDMinorSeventh | SharedCode.swift:175-191 | root "D" with quality "m7" is playable and resolves to [50, 62, 65, 69, 60] |
| Synth.NoteOffs | SharedCode.swift:200-206 | one Note Off (status 0x80, the pitch, velocity 127) per pitch, in stored order |
| Synth.SoundEvents | SharedCode.swift:193-196 | 2n events: for each pitch in order, a Program Change (0xC0, program 0) immediately followed by a Note On (0x90, the pitch, velocity 64); none is a note-off |
| Synth.SilenceBeforeSound | SharedCode.swift:174-196 | in what `playPatchOn` sends, an event is a note-off exactly when it lies in the leading block for the previous pitches |
| Synth.AudioUnitMIDISynth.constructor | SharedCode.swift:43 | a new synthesizer has an empty pitch record and has sent nothing |
| Synth.AudioUnitMIDISynth.PlayPatchOff | SharedCode.swift:200-207 | appends exactly the note-offs for the stored pitches, changes nothing else, and keeps the 48..71 range of the record |
| Synth.AudioUnitMIDISynth.PlayPatchOn | SharedCode.swift:167-197 | the new record is the resolved pitch list and lies in 48..71; the log grows by the note-offs of the old record followed by the sound events of the new one |
| Synth.AudioUnitMIDISynth.ChooseVoice | SharedCode.swift:175-192 | resets the record and rebuilds it to exactly the resolved pitch list |
| Synth.AudioUnitMIDISynth.AppendChordTones | SharedCode.swift:189-191 | the `for k in chord` loop appends exactly the key stack of the intervals |
| Synth.AudioUnitMIDISynth.SoundPitches | SharedCode.swift:193-196 | the `for p in pitches` loop appends exactly the sound events of the record |
| Synth.SilenceTwice | SharedCode.swift:200-207 | silencing twice keeps the record and sends its note-offs twice |
| Synth.PlayWithoutRoot | SharedCode.swift:174-186 | with no root the old voice is still stopped, then the record is empty and nothing else is sent |
| Synth.SilenceWhenSilent | SharedCode.swift:200-207 | silencing any synthesizer whose record is empty sends nothing |
| Synth.ChangeChord | SharedCode.swift:167-207 | playing two chords in a row sends the first chord's sound events, then all its note-offs, then the second chord's sound events |

## Left out

- AUGraph construction, wiring, initialisation and start-up are not modelled (`augraphSetup`, `createIONode`, `createSynthNode`, `initializeGraph`, `startGraph`, `isGraphInitialized`, `isGraphRunning`). They are AudioToolbox and CoreAudio foreign calls.
- Sound-font loading and `loadPatches` are not modelled. They are bundle and file I/O plus audio-unit property setting.
- `OSStatus` results are not modelled. Every one is assigned and ignored, so the model has no error path from the synthesizer.
- `MusicDeviceMIDIEvent` is modelled only as appending an `Event` to `log`. There is no audio, no timing and no sample offset. The `midisynthUnit!` unwrap is assumed to succeed.
- The `NSObject` base class and the side effects of `init` are not modelled. The constructor only sets up the empty record and the empty log. The unused `musicSequence` and `musicPlayer` fields are left out.
- Unknown root or quality: a name missing from its table traps in Swift. Here it is a precondition (`Resolvable`), so the trap itself is not modelled.
- The quality dictionary is an association list in source order, searched by `Lookup`. Dictionary ordering and hashing are not modelled. The names are pairwise distinct (`CatalogNamesDistinct`), so the first match is the only one.
- Pitches are Swift `UInt32` and are modelled as unbounded `int`. No conversion or wrap-around is modelled, and none can occur: every value is in 48..71 (`ResolveInRange`).
- Status bytes are written as `0x80 + 0`, `0x90 + 0` and `0xC0 + 0` where the source writes `0x80 | channel`. For a channel below 16 the two are equal.
