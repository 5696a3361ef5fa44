# Piano and MIDI player: a Dafny model

This project models the logic of a browser piano application. You can play it from the
computer keyboard or the on-screen keys, load a MIDI file, and play, pause and stop it.
While it plays, a scrolling piano roll shows the notes, and a list shows the bundled
sample MIDI files.

The model covers five parts of the application:

- **The playback controller** (`hooks/use-piano.ts`), modelled as class `UsePiano.PianoController`.
  - It normalises note names (`fixNoteFormat`).
  - It presses and releases notes, keeping the set of active notes.
  - When playback starts, it collects the not-yet-played notes of every track, sorts them
    by time, and arms one note-on and one note-off timer per note.
    - A note-off timer fires at least 100 ms after its note-on.
  - An animation-frame loop advances the play position.
  - Pause, stop and the end of the piece cancel every timer. Each cancelled note-on timer
    releases its note.
  - Timers and animation frames are explicit state:
    - `Fire(i)` is the callback of timer `i`;
    - `Tick(now)` is one animation frame;
    - the wall clock is the parameter `now`.
  - The sound engine is seen through a log (`sink`) of the press and release calls it receives.
- **The sound engine** (`lib/sound-engine.ts`), modelled as class `SoundEngine.SoundEngine`.
  - It validates a note name, falling back to `C4`.
  - It converts the note name to the sampler's spelling.
  - It boosts the velocity by half, capped at 1.
  - It maps the volume to decibels.
  - It implements the sustain pedal: notes pressed while the pedal is down are held until
    it is lifted. The sampler is seen through a log of attack and release calls.
- **The piano roll** (`components/midi-player.tsx`), modelled as module `MidiPlayer`. It covers:
  - MIDI number to note name;
  - the visible time window;
  - which notes are drawn, how wide, and in which colour.
- **The keyboard component** (`components/piano-keyboard.tsx`), modelled as module `PianoKeyboard`. It covers:
  - the computer-key map and its octave rule;
  - the key names of one octave;
  - highlighting;
  - the scroll position kept by wheel and drag (class `KeyboardScroll`).
- **The sample list** (`components/sample-midis.tsx`), modelled as module `SampleMidis`. It covers:
  - which manifest entries become samples;
  - how a file name becomes a display name;
  - the "Playing"/"Loaded" badge.

Shared modules:

- `Strings` holds the character classes, filtering, ASCII case mapping, and decimal
  printing and parsing of integers.
- `Wrappers` holds `Option`.

Score times, durations and timer delays are exact `real` numbers of seconds or milliseconds.
The wall clock is an `int` count of milliseconds, as `Date.now()` returns.

## Model

| member | source | states |
|---|---|---|
| Strings.ToUpper | components/sample-midis.tsx:29 | lower-case ASCII letters map to their upper-case partner; every other character is unchanged |
| Strings.ToLower | components/piano-keyboard.tsx:54 | upper-case ASCII letters map to their lower-case partner; every other character is unchanged |
| Strings.LowerString | components/piano-keyboard.tsx:54 | `toLowerCase` keeps the length and lower-cases each character in place |
| Strings.Filter | hooks/use-piano.ts:27 | the characters a negated-class `replace(..., "")` keeps: at most as many, all of the kept class, all taken from the input |
| Strings.FilterCounts | hooks/use-piano.ts:27 | every kept character occurs exactly as often as in the input, so nothing allowed is lost |
| Strings.FilterKeepsAll | hooks/use-piano.ts:27 | a string made only of allowed characters passes through unchanged |
| Strings.FilterIdempotent | hooks/use-piano.ts:27 | cleaning an already cleaned name changes nothing |
| Strings.FilterAppend | hooks/use-piano.ts:27 | cleaning a concatenation cleans each part |
| Strings.DigitChar | hooks/use-piano.ts:38 | a digit 0..9 prints as the decimal character of that value |
| Strings.DigitValue | hooks/use-piano.ts:38 | the inverse of DigitChar on decimal characters |
| Strings.NatToString | hooks/use-piano.ts:38 | a number prints as decimal digits without a leading zero, one digit exactly below 10 |
| Strings.ParseNatToString | hooks/use-piano.ts:38 | reading back the printed digits gives the number |
| Strings.IntToString | components/midi-player.tsx:17 | a negative octave prints with a leading '-' then digits; others print as digits only |
| Strings.IntToStringRoundTrip | components/midi-player.tsx:17 | printing an integer loses nothing: parsing the text gives the integer back |
| Strings.IntToStringInjective | components/midi-player.tsx:17 | different octaves print differently |
| SoundEngine.ValidateNote | lib/sound-engine.ts:193-207 | the result is always letter, optional '#'/'b', digit; it is the cleaned note when that has this shape, else "C4" |
| SoundEngine.ValidateNoteKeepsValid | lib/sound-engine.ts:193-207 | a well-formed note passes validation unchanged |
| SoundEngine.ValidateNoteIdempotent | lib/sound-engine.ts:193-207 | validating twice is validating once |
| SoundEngine.ReplaceFirstS | lib/sound-engine.ts:217 | only the first 's' becomes '#'; every other character, and a name without 's', is unchanged |
| SoundEngine.ConvertNoteFormat | lib/sound-engine.ts:210-220 | the sampler receives the validated note, and it never contains 's' (the conversion branch cannot be reached) |
| SoundEngine.SharpSpellingLost | lib/sound-engine.ts:210-220 | a black key spelt "Cs4" reaches the sampler as "C4": the sharp is dropped by validation |
| SoundEngine.SharpSpellingKept | lib/sound-engine.ts:210-220 | a sharp spelt "C#4" reaches the sampler unchanged |
| SoundEngine.BoostVelocity | lib/sound-engine.ts:235 | the velocity is raised by half, never above 1; it is exactly 1.5x when that stays at most 1 |
| SoundEngine.VolumeDb | lib/sound-engine.ts:278-285 | the gain is 30 dB per unit volume from -20 dB, floored at -60 dB; volumes 0..1 land in -20..+10 dB |
| SoundEngine.InitialVolume | lib/sound-engine.ts:30 | an absent or zero volume option becomes 0.85; any other value is used as given |
| SoundEngine.SetAdd | lib/sound-engine.ts:242 | adding to the sustained-note set: afterwards it holds exactly the old notes plus the new one, still without duplicates |
| SoundEngine.ReleaseAll | lib/sound-engine.ts:269-273 | one release call per sustained note, in the set's order |
| SoundEngine.SoundEngine.constructor | lib/sound-engine.ts:16-33 | pedal up, no sustained notes, no calls, gain set from the volume option |
| SoundEngine.SoundEngine.PressNote | lib/sound-engine.ts:222-247 | nothing happens until the sampler is loaded; then one attack with the converted note and boosted velocity, recorded as sustained while the pedal is down |
| SoundEngine.SoundEngine.ReleaseNote | lib/sound-engine.ts:249-262 | once loaded, a release is sent unless the pedal is down and the note is being sustained; nothing else changes |
| SoundEngine.SoundEngine.SetSustainPedal | lib/sound-engine.ts:264-276 | sets the pedal; lifting it releases every sustained note when there is a sampler and empties the set |
| SoundEngine.SoundEngine.SetVolume | lib/sound-engine.ts:278-285 | only the gain changes, to VolumeDb of the new volume |
| UsePiano.ClampOctave | hooks/use-piano.ts:36 | the floored octave, clamped to 0..8 |
| UsePiano.FixNoteFormat | hooks/use-piano.ts:25-40 | the name is the note characters of the input (or "C" if none), followed by one digit that is the clamped octave |
| UsePiano.FixNoteFormatIdempotent | hooks/use-piano.ts:25-40 | fixing an already fixed name gives it back |
| UsePiano.FixNoteFormatPrinted | hooks/use-piano.ts:27-38 | when the name keeps note characters, the fixed name is exactly them followed by the printed clamped octave |
| UsePiano.ToPlayNote | hooks/use-piano.ts:213-222 | a collected note keeps its time, duration and velocity and carries the fixed note name |
| UsePiano.PendingIn | hooks/use-piano.ts:210-224 | the notes of one track collected for playback all start at or after the offset |
| UsePiano.Pending | hooks/use-piano.ts:208-226 | the notes of all tracks collected for playback all start at or after the offset |
| UsePiano.PendingInMembership | hooks/use-piano.ts:210-224 | a note is collected from a track exactly when some note of the track starts at or after the offset and converts to it |
| UsePiano.PendingMembership | hooks/use-piano.ts:208-226 | a note is collected exactly when some track has a note at or after the offset that converts to it |
| UsePiano.CollectNotes | hooks/use-piano.ts:208-226 | the loop over tracks builds exactly the pending notes |
| UsePiano.CollectTrack | hooks/use-piano.ts:210-224 | the loop over one track appends exactly that track's pending notes |
| UsePiano.SortedStillPending | hooks/use-piano.ts:235 | sorting keeps every note at or after the offset |
| UsePiano.Swap | hooks/use-piano.ts:235 | exchanges two entries and keeps the rest and the multiset |
| UsePiano.SortByTime | hooks/use-piano.ts:235 | the result is ordered by start time and is a permutation of the input |
| UsePiano.InsertInto | hooks/use-piano.ts:235 | one insertion step: the sorted prefix grows by one, the contents are permuted |
| UsePiano.OnDelay | hooks/use-piano.ts:247-250 | the note-on delay is non-negative exactly for notes at or after the offset, so the `startDelay >= 0` guard never skips a collected note; it is zero exactly at the offset |
| UsePiano.OffDelay | hooks/use-piano.ts:248-263 | the note-off delay is at least 100 ms after the note-on delay, and never before the note's end |
| UsePiano.TimersFor | hooks/use-piano.ts:250-274 | one note arms two timers: a note-on then a note-off for the same note, carrying its velocity and its start and end times, the off at least 100 ms after the on |
| UsePiano.ScheduleOf | hooks/use-piano.ts:246-277 | at most two timers per note |
| UsePiano.ScheduleShape | hooks/use-piano.ts:246-277 | when all notes are pending, every note gets exactly a note-on then a note-off entry, in note order, with its name, velocity, times and delays |
| UsePiano.ScheduleDelays | hooks/use-piano.ts:247-263 | every delay is non-negative; each note-off is at least 100 ms after its note-on; for sorted notes the note-on delays are ordered |
| UsePiano.ReleasesFor | hooks/use-piano.ts:142-148 | clearing releases at most one note per timer |
| UsePiano.NotesOf | hooks/use-piano.ts:266-274 | the note names of a batch, in order |
| UsePiano.ReleasedNotesSnoc | hooks/use-piano.ts:142-148 | one more timer adds its note to the released list and set exactly when it is a note-on |
| UsePiano.ReleasesForAppend | hooks/use-piano.ts:142-148 | the releases of two timer lists are those of each, in order |
| UsePiano.ReleasesForSchedule | hooks/use-piano.ts:142-148 | cancelling a whole schedule releases every scheduled note exactly once, in schedule order |
| UsePiano.ReleasesForTimers | hooks/use-piano.ts:142-148 | the two timers of one note release that note once (only the note-on entry releases) |
| UsePiano.ReleaseCalls | hooks/use-piano.ts:146 | one release call per note, in order |
| UsePiano.Position | hooks/use-piano.ts:161-162 | the play position is the offset plus the elapsed wall-clock milliseconds over 1000; it equals the offset at the start time and never falls below it afterwards |
| UsePiano.PositionMonotone | hooks/use-piano.ts:159-162 | the play position never moves backwards while the clock advances |
| UsePiano.PianoController.constructor | hooks/use-piano.ts:13-22 | nothing loaded, not playing, no active notes, no timers, no frame armed |
| UsePiano.PianoController.PressNote | hooks/use-piano.ts:75-86 | without an engine nothing happens; otherwise one press call and the note becomes active |
| UsePiano.PianoController.ReleaseNote | hooks/use-piano.ts:89-104 | without an engine nothing happens; otherwise one release call and the note stops being active |
| UsePiano.PianoController.Load | hooks/use-piano.ts:107-114 | the file, its duration, position 0 and offset 0 are stored; timers are left running |
| UsePiano.PianoController.ClearScheduledEvents | hooks/use-piano.ts:140-156 | every pending note-on timer's note is released (with an engine), the timers and the frame are cancelled, and no note is active |
| UsePiano.PianoController.ReleaseScheduled | hooks/use-piano.ts:142-148 | the loop over the timers sends exactly the release calls of their note-on entries and, with an engine, removes exactly those notes from the active set; without one the active set is unchanged |
| UsePiano.PianoController.Tick | hooks/use-piano.ts:159-178 | an unarmed frame does nothing; an armed frame stops when not playing, advances the position before the end, and at the end finishes playback; only the finishing frame touches the timers or their fired flags |
| UsePiano.PianoController.FinishPlayback | hooks/use-piano.ts:170-175 | at the end: not playing, position at the duration, offset 0, everything cleared |
| UsePiano.PianoController.Play | hooks/use-piano.ts:181-285 | without a file or engine, or while playing, nothing changes; otherwise old timers are cleared, and with no pending notes playback does not start, else it starts now with the sorted pending notes scheduled |
| UsePiano.PianoController.CollectAndStart | hooks/use-piano.ts:199-243 | the pending notes are collected; none means return, else playback starts with them sorted and scheduled |
| UsePiano.PianoController.StartPlayback | hooks/use-piano.ts:235-277 | playing from now with the frame armed, the batch sorted and a permutation of the notes, and exactly its schedule armed |
| UsePiano.PianoController.ArmTimers | hooks/use-piano.ts:246-277 | the timers armed are exactly the schedule of the sorted batch at the offset |
| UsePiano.PianoController.Pause | hooks/use-piano.ts:288-299 | when playing, the current position becomes the resume offset and everything is cleared; when not playing, nothing changes |
| UsePiano.PianoController.Stop | hooks/use-piano.ts:302-309 | always clears, stops and rewinds position and offset to 0 |
| UsePiano.PianoController.Fire | hooks/use-piano.ts:252-263 | a live, unfired timer fires once: a note-on presses, a note-off releases its note (with an engine); a cancelled or fired one does nothing |
| MidiPlayer.MidiToNoteName | components/midi-player.tsx:13-18 | a pitch letter first and an octave digit last |
| MidiPlayer.MidiToNoteNameExamples | components/midi-player.tsx:199-205 | three of the grid labels (21 is A0, 60 is C4, 108 is C8) and two further examples (61 is C#4, 0 is C-1) |
| MidiPlayer.MidiToNoteNameInjective | components/midi-player.tsx:13-18 | different MIDI numbers get different names |
| MidiPlayer.Viewport | components/midi-player.tsx:47-51 | the window starts at 0 or later and spans width/80 seconds; the playhead sits a fifth of the way in once past the first fifth, and always inside |
| MidiPlayer.IsVisible | components/midi-player.tsx:111 | a note starting inside the window, or spanning its left edge, is drawn; one ending before the window or starting after it is not |
| MidiPlayer.VisibleIffOverlap | components/midi-player.tsx:111 | a note is drawn exactly when its time span and the window share an instant |
| MidiPlayer.NoteWidth | components/midi-player.tsx:112-115 | the width is at least 3 px and at least the span at 80 px/s, and equals the span once that reaches 3 px |
| MidiPlayer.CleanName | components/midi-player.tsx:118 | the compared name is the note characters of the name followed by the printed octave |
| MidiPlayer.CleanNameMatchesPlayback | components/midi-player.tsx:118-119 | for octaves 0..8 and a name with note characters, the piano roll looks up the same name the controller presses |
| MidiPlayer.Hex | components/midi-player.tsx:123-131 | each fill colour is a CSS colour: '#' and six lower-case hex digits |
| MidiPlayer.HexDistinct | components/midi-player.tsx:123-131 | the five note states are drawn in five different colours |
| MidiPlayer.NoteColour | components/midi-player.tsx:119-132 | red exactly under the playhead while playing; blue exactly when otherwise active; then green above 0.7, yellow above 0.4, gray otherwise |
| PianoKeyboard.KeyboardMap | components/piano-keyboard.tsx:20-40 | a note exactly for the 17 mapped keys, each a single character; a letter or a letter with 's' |
| PianoKeyboard.GetNoteName | components/piano-keyboard.tsx:48 | the key followed by the printed octave |
| PianoKeyboard.KeyOctave | components/piano-keyboard.tsx:63 | one above the base octave exactly for keys after 'j' in character order |
| PianoKeyboard.NoteForKey | components/piano-keyboard.tsx:60-65 | a note exactly for mapped keys, starting with the mapped name |
| PianoKeyboard.WhiteKeyMapping | components/piano-keyboard.tsx:21-31 | the home row plays C D E F G A B C D E |
| PianoKeyboard.BlackKeyMapping | components/piano-keyboard.tsx:32-39 | the top row plays the sharps; space, 'q' and raw upper case are unmapped |
| PianoKeyboard.OctaveRule | components/piano-keyboard.tsx:63 | among mapped keys, exactly s k l w t y u o p sound an octave up (so 's' and 'w' do too) |
| PianoKeyboard.KeyDown | components/piano-keyboard.tsx:50-69 | a repeat presses nothing; otherwise the lower-cased key presses its note, if mapped |
| PianoKeyboard.KeyUp | components/piano-keyboard.tsx:71-83 | a release happens exactly for mapped keys |
| PianoKeyboard.ReleaseMatchesPress | components/piano-keyboard.tsx:50-83 | releasing a key releases the very note pressing it played |
| PianoKeyboard.MappingNotInjective | components/piano-keyboard.tsx:23-39 | 's' and 'l' both play D one octave up, and 'w' and 'o' both play C sharp one octave up |
| PianoKeyboard.BlackKeySoundsWhite | components/piano-keyboard.tsx:33-39 | a computer black key reaches the sampler as its white neighbour: the 's' spelling is dropped |
| PianoKeyboard.RenderedKeys | components/piano-keyboard.tsx:184-187 | gaps are skipped: no more buttons than slots |
| PianoKeyboard.RenderedKeysMembership | components/piano-keyboard.tsx:184-187 | a button is rendered exactly for the keys present in the row |
| PianoKeyboard.OctaveLayout | components/piano-keyboard.tsx:15-17 | every octave shows seven white and five black keys: Cs Ds Fs Gs As |
| PianoKeyboard.IsHighlighted | components/piano-keyboard.tsx:150-151 | a lit key has an active note whose name begins with the key's name |
| PianoKeyboard.PlaybackNeverLightsBlackKey | components/piano-keyboard.tsx:189-190 | a note pressed by playback never highlights a black key, because no playback name equals a black key's name |
| PianoKeyboard.PlaybackNameIsKeyName | components/piano-keyboard.tsx:150 | the name playback presses is the on-screen key name of its note characters at the clamped octave |
| PianoKeyboard.LitInRenderedOctave | components/piano-keyboard.tsx:239 | a key whose name at an octave 0..8 is active is lit in one of the rendered octaves |
| PianoKeyboard.PlaybackLightsWhiteKey | components/piano-keyboard.tsx:150-151 | a natural note pressed by playback lights its white key in one of the rendered octaves 0..8 |
| PianoKeyboard.ClampScroll | components/piano-keyboard.tsx:89-92 | the scroll position stays within 0..max, and is unchanged when already within |
| PianoKeyboard.KeyboardScroll.constructor | components/piano-keyboard.tsx:44-46 | scrolled to 0, not dragging |
| PianoKeyboard.KeyboardScroll.Wheel | components/piano-keyboard.tsx:85-98 | the wheel moves the position by deltaX, clamped, and the container's scrollLeft is set to it |
| PianoKeyboard.KeyboardScroll.MouseDown | components/piano-keyboard.tsx:100-108 | a press on the container starts a drag anchored at clientX plus the position |
| PianoKeyboard.KeyboardScroll.MouseMove | components/piano-keyboard.tsx:110-122 | while dragging, the position becomes the anchor minus clientX, clamped, and scrollLeft is set to it; otherwise both are unchanged |
| PianoKeyboard.KeyboardScroll.NativeScroll | components/piano-keyboard.tsx:226-231 | the browser's own scrolling of the container moves scrollLeft and leaves the stored position stale |
| PianoKeyboard.KeyboardScroll.MouseUp | components/piano-keyboard.tsx:124-126 | the drag ends |
| SampleMidis.ExtensionLength | components/sample-midis.tsx:27 | 4 exactly for a case-insensitive ".mid" ending, 5 exactly for ".midi", 0 exactly for neither |
| SampleMidis.StripExtension | components/sample-midis.tsx:27 | the file name without its MIDI extension, a prefix of it; other names are unchanged |
| SampleMidis.StripAddedExtension | components/sample-midis.tsx:27 | a MIDI extension in any case added to a name is removed again |
| SampleMidis.StripsOnlyOneExtension | components/sample-midis.tsx:27 | only the last extension goes: "x.mid.mid" becomes "x.mid" |
| SampleMidis.IsMidiFileName | components/sample-midis.tsx:47 | a manifest entry is taken exactly when its last four characters lower-case to ".mid" or its last five to ".midi" |
| SampleMidis.EndsWithLowered | components/sample-midis.tsx:47 | a case-insensitive ending is exactly an ending of the lower-cased name |
| SampleMidis.SeparatorsToSpaces | components/sample-midis.tsx:28 | each '-' and '_' becomes a space, all else stays |
| SampleMidis.CapitalizeWords | components/sample-midis.tsx:29 | the character at each word boundary is upper-cased, all else stays |
| SampleMidis.FormatDisplayName | components/sample-midis.tsx:25-30 | the extension is dropped, separators become spaces, and each word's first character is upper-cased |
| SampleMidis.DisplayNameHasNoSeparators | components/sample-midis.tsx:28 | a display name contains no '-' and no '_' |
| SampleMidis.DisplayNameWordsCapitalized | components/sample-midis.tsx:29 | every word of a display name begins with a character that is not a lower-case letter |
| SampleMidis.FormatIgnoresExtension | components/sample-midis.tsx:25-30 | "song" plus ".mid" or ".MIDI" displays as "song" does |
| SampleMidis.SampleFor | components/sample-midis.tsx:51-55 | the sample keeps the file name, shows its display name, and its path is the samples folder followed by the name |
| SampleMidis.Samples | components/sample-midis.tsx:46-56 | no more samples than manifest entries |
| SampleMidis.SamplesMembership | components/sample-midis.tsx:46-56 | a sample is listed exactly for a manifest entry with a MIDI extension that the server has |
| SampleMidis.DiscoverSamples | components/sample-midis.tsx:46-56 | the discovery loop builds exactly that list |
| SampleMidis.BadgeFor | components/sample-midis.tsx:175-176 | "Playing" exactly for the current sample while playing, "Loaded" exactly for it otherwise, none for others |

## Left out

- The Tone.js audio graph (sampler, fallback synth, volume node, compressor) and sample
  loading (`initializeSampler`, `waitForLoad`, `dispose`). The sampler is the log of calls it
  receives, and "loaded" is the flag `isLoaded`.
- MIDI parsing (`new Midi(arrayBuffer)`) and its error path: `Load` receives an already parsed file.
- `Tone.start` and the `try/catch` paths of `playMidi`, `pressNote` and `releaseNote`: the
  calls they guard are not modelled as able to fail.
- The hook's `setVolume` and `setSustainPedal` wrappers and the engine's creation effect
  (hooks/use-piano.ts:43-72): the wrappers forward to the engine, which is modelled, and
  record the value in React state for display (hooks/use-piano.ts:58, 67, returned at
  :321 and :323); that display state is not modelled.
- Browser timers: `setTimeout` is the list `scheduled` plus `Fire(i)`, and `requestAnimationFrame`
  is the flag `frameArmed` plus `Tick(now)`; when a timer fires is up to the caller.
- UsePiano.PianoController.Tick: React's stale closure (the frame callback seeing an old
  `isPlaying`) is not modelled; the model keeps one consistent state.
- Console logging, the canvas drawing (grid lines, note y position, rounded rectangles),
  the theme toggle, the loading screen and app/page.tsx are not part of this model.
- The manifest fetch and the HEAD requests of the sample list: the manifest is the
  parameter `files`, and the set `available` holds the names whose HEAD request succeeded.
  A manifest entry that is not a string (the regex call would throw) is not modelled.
- ASCII case mapping only: `toLowerCase`/`toUpperCase` beyond ASCII are not modelled.
  `\w` and `/i` without the `u` flag act on ASCII letters only, so the display name and
  the extension test are exact.
- UsePiano.SortByTime: proves sorted and a permutation, but not stability (the
  source sort is stable).
- The `originalNote` field of a collected note is never read, so it is not modelled.
- PianoKeyboard.KeyboardScroll: the container element is assumed mounted
  (`containerRef.current` non-null).
- PianoKeyboard.KeyboardScroll.NativeScroll: the offset the browser scrolls to is a
  parameter; the browser's own clamping of it to the scrollable range is not modelled.
- MidiPlayer.MidiToNoteName requires a non-negative MIDI number; a negative one would
  index the name table with a negative remainder in JavaScript.
- UsePiano.PianoController.Load leaves timers that are already armed running, as
  hooks/use-piano.ts:107-137 does.
- Score times, durations, delays, velocities, volumes and pixel positions are exact `real`
  numbers, not IEEE doubles. Rounding, infinities and NaN are not modelled.
