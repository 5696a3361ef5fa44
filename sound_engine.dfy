/**
 * The sampled-piano engine's note bookkeeping (lib/sound-engine.ts): note-name
 * normalisation, the sustain pedal and the gain arithmetic. The Tone.js
 * sampler is replaced by a log of the attack and release calls made on it.
 */
module SoundEngine {
  import opened Strings
  import opened Wrappers

  predicate IsNoteLetter(c: char) { 'A' <= c <= 'G' }

  predicate IsAccidental(c: char) { c == '#' || c == 'b' }

  /** The characters that survive `note.replace(/[^A-G#b0-9]/g, "")`. */
  predicate IsEngineChar(c: char) { IsNoteLetter(c) || IsAccidental(c) || IsDigit(c) }

  /** The pattern `^([A-G][#b]?)([0-9])$`. */
  predicate IsValidNote(s: string) {
    || (|s| == 2 && IsNoteLetter(s[0]) && IsDigit(s[1]))
    || (|s| == 3 && IsNoteLetter(s[0]) && IsAccidental(s[1]) && IsDigit(s[2]))
  }

  /** The fallback note used for anything that does not normalise. */
  const FallbackNote: string := "C4"

  /**
   * validateNote: strip every character outside A–G, '#', 'b' and the digits;
   * keep the result if it is a letter, an optional accidental and one digit,
   * otherwise answer "C4".
   */
  function ValidateNote(note: string): (r: string)
    ensures IsValidNote(r)
    ensures IsValidNote(Filter(note, IsEngineChar)) ==> r == Filter(note, IsEngineChar)
    ensures !IsValidNote(Filter(note, IsEngineChar)) ==> r == FallbackNote
  {
    var clean := Filter(note, IsEngineChar);
    if IsValidNote(clean) then clean else FallbackNote
  }

  /** A note already in the canonical pattern comes back unchanged. */
  lemma ValidateNoteKeepsValid(note: string)
    requires IsValidNote(note)
    ensures ValidateNote(note) == note
  {
    FilterKeepsAll(note, IsEngineChar);
  }

  /** Normalising twice is normalising once. */
  lemma ValidateNoteIdempotent(note: string)
    ensures ValidateNote(ValidateNote(note)) == ValidateNote(note)
  {
    ValidateNoteKeepsValid(ValidateNote(note));
  }

  /** `s.replace("s", "#")`: the first 's' becomes '#'. */
  function ReplaceFirstS(s: string): (r: string)
    ensures |r| == |s|
    ensures 's' !in s ==> r == s
    ensures forall i :: 0 <= i < |s| ==> r[i] == (if s[i] == 's' && 's' !in s[..i] then '#' else s[i])
  {
    if s == [] then []
    else if s[0] == 's' then ['#'] + s[1..]
    else
      var rest := ReplaceFirstS(s[1..]);
      assert forall i :: 1 <= i < |s| ==> s[..i] == [s[0]] + s[1..][..i - 1];
      [s[0]] + rest
  }

  /**
   * convertNoteFormat: validate, then turn an 's' accidental into '#'.
   * Validation has already removed every 's', so the conversion branch never
   * applies and the result is exactly the validated note.
   */
  function ConvertNoteFormat(note: string): (r: string)
    ensures r == ValidateNote(note)
    ensures 's' !in r
  {
    var valid := ValidateNote(note);
    if 's' in valid then ReplaceFirstS(valid) else valid
  }

  /**
   * Consequence of the dead branch: the 's' spelling of a black key ("Cs4",
   * "Ds4") loses its accidental and names the white key below it.
   */
  lemma SharpSpellingLost(letter: char, digit: char)
    requires IsNoteLetter(letter) && IsDigit(digit)
    ensures ConvertNoteFormat([letter, 's', digit]) == [letter, digit]
  {
    var note := [letter, 's', digit];
    assert note[1..] == ['s', digit] && note[1..][1..] == [digit] && [digit][1..] == [];
    assert Filter([digit], IsEngineChar) == [digit];
    assert Filter(note, IsEngineChar) == [letter, digit];
  }

  /** The '#' spelling is kept as it is. */
  lemma SharpSpellingKept(letter: char, digit: char)
    requires IsNoteLetter(letter) && IsDigit(digit)
    ensures ConvertNoteFormat([letter, '#', digit]) == [letter, '#', digit]
  {
    ValidateNoteKeepsValid([letter, '#', digit]);
  }

  /** `Math.min(1.0, velocity * 1.5)`: the 50% boost applied at press time. */
  function BoostVelocity(velocity: real): (r: real)
    ensures r <= 1.0
    ensures r <= velocity * 1.5
    ensures velocity * 1.5 <= 1.0 ==> r == velocity * 1.5
    ensures 0.0 <= velocity ==> velocity <= r || r == 1.0
  {
    if velocity * 1.5 < 1.0 then velocity * 1.5 else 1.0
  }

  /** `Math.max(-60, volume * 30 - 20)`: the level in dB written to the volume node. */
  function VolumeDb(volume: real): (db: real)
    ensures db >= -60.0
    ensures volume * 30.0 - 20.0 >= -60.0 ==> db == volume * 30.0 - 20.0
    ensures 0.0 <= volume <= 1.0 ==> -20.0 <= db <= 10.0
  {
    if volume * 30.0 - 20.0 < -60.0 then -60.0 else volume * 30.0 - 20.0
  }

  /** `options.volume || 0.85`: a missing or zero volume falls back to 0.85. */
  function InitialVolume(volume: Option<real>): (v: real)
    ensures volume.Some? && volume.value != 0.0 ==> v == volume.value
    ensures volume.None? || volume.value == 0.0 ==> v == 0.85
  {
    if volume.None? || volume.value == 0.0 then 0.85 else volume.value
  }

  /** A call made on the sampler. */
  datatype SamplerCall = Attack(note: string, velocity: real) | Release(note: string)

  predicate NoDuplicates(s: seq<string>) {
    forall i, j :: 0 <= i < j < |s| ==> s[i] != s[j]
  }

  /** `set.add(x)` on a JavaScript Set, which keeps insertion order. */
  function SetAdd(s: seq<string>, x: string): (r: seq<string>)
    ensures x in r
    ensures forall y :: y in r <==> y in s || y == x
    ensures NoDuplicates(s) ==> NoDuplicates(r)
  {
    if x in s then s else s + [x]
  }

  /** One release per note, in order. */
  function ReleaseAll(notes: seq<string>): (r: seq<SamplerCall>)
    ensures |r| == |notes|
    ensures forall i :: 0 <= i < |notes| ==> r[i] == Release(notes[i])
  {
    seq(|notes|, i requires 0 <= i < |notes| => Release(notes[i]))
  }

  class SoundEngine {
    /** The sampler object exists. */
    var hasSampler: bool
    /** Its samples have finished loading. */
    var isLoaded: bool
    var sustainPedal: bool
    /** The JavaScript Set of sustained notes, in insertion order. */
    var sustainedNotes: seq<string>
    /** The value last written to the volume node, in dB. */
    var volumeDb: real
    /** Every call made on the sampler, oldest first. */
    var calls: seq<SamplerCall>

    ghost predicate Valid()
      reads this
    {
      && NoDuplicates(sustainedNotes)
      && (forall i :: 0 <= i < |sustainedNotes| ==> IsValidNote(sustainedNotes[i]))
      && (!sustainPedal ==> sustainedNotes == [])
      && volumeDb >= -60.0
    }

    predicate Ready()
      reads this
    {
      hasSampler && isLoaded
    }

    /** The outcome of the sample loading is given as `hasSampler` and `isLoaded`. */
    constructor (volume: Option<real>, hasSampler: bool, isLoaded: bool)
      ensures Valid()
      ensures this.hasSampler == hasSampler && this.isLoaded == isLoaded
      ensures !sustainPedal && sustainedNotes == [] && calls == []
      ensures volumeDb == VolumeDb(InitialVolume(volume))
    {
      this.hasSampler := hasSampler;
      this.isLoaded := isLoaded;
      sustainPedal := false;
      sustainedNotes := [];
      calls := [];
      volumeDb := VolumeDb(InitialVolume(volume));
    }

    /**
     * pressNote: attack the normalised note with the boosted velocity and,
     * while the pedal is down, remember it as sustained.
     */
    method PressNote(note: string, velocity: real)
      requires Valid()
      modifies this
      ensures Valid()
      ensures hasSampler == old(hasSampler) && isLoaded == old(isLoaded)
      ensures sustainPedal == old(sustainPedal) && volumeDb == old(volumeDb)
      ensures !Ready() ==> calls == old(calls) && sustainedNotes == old(sustainedNotes)
      ensures Ready() ==> calls == old(calls) + [Attack(ConvertNoteFormat(note), BoostVelocity(velocity))]
      ensures Ready() && sustainPedal ==> sustainedNotes == SetAdd(old(sustainedNotes), ConvertNoteFormat(note))
      ensures !sustainPedal ==> sustainedNotes == old(sustainedNotes)
    {
      if !hasSampler || !isLoaded {
        return;
      }
      var standardNote := ConvertNoteFormat(note);
      var boostedVelocity := BoostVelocity(velocity);
      calls := calls + [Attack(standardNote, boostedVelocity)];
      if sustainPedal {
        sustainedNotes := SetAdd(sustainedNotes, standardNote);
      }
    }

    /**
     * releaseNote: release the normalised note unless the pedal is down and
     * the note is sustained. Nothing is ever taken out of the sustained set.
     */
    method ReleaseNote(note: string)
      requires Valid()
      modifies this
      ensures Valid()
      ensures hasSampler == old(hasSampler) && isLoaded == old(isLoaded)
      ensures sustainPedal == old(sustainPedal) && volumeDb == old(volumeDb)
      ensures sustainedNotes == old(sustainedNotes)
      ensures !Ready() ==> calls == old(calls)
      ensures Ready() ==> calls == old(calls) +
                            (if !sustainPedal || ConvertNoteFormat(note) !in sustainedNotes
                             then [Release(ConvertNoteFormat(note))] else [])
    {
      if !hasSampler || !isLoaded {
        return;
      }
      var standardNote := ConvertNoteFormat(note);
      if !sustainPedal || standardNote !in sustainedNotes {
        calls := calls + [Release(standardNote)];
      }
    }

    /**
     * setSustainPedal: set the flag; lifting the pedal releases every
     * sustained note once, in insertion order, and empties the set.
     */
    method SetSustainPedal(enabled: bool)
      requires Valid()
      modifies this
      ensures Valid()
      ensures sustainPedal == enabled
      ensures hasSampler == old(hasSampler) && isLoaded == old(isLoaded) && volumeDb == old(volumeDb)
      ensures enabled ==> sustainedNotes == old(sustainedNotes) && calls == old(calls)
      ensures !enabled ==> sustainedNotes == []
      ensures !enabled ==> calls == old(calls) + (if hasSampler then ReleaseAll(old(sustainedNotes)) else [])
    {
      sustainPedal := enabled;
      if !enabled {
        var i := 0;
        while i < |sustainedNotes|
          invariant 0 <= i <= |sustainedNotes|
          invariant sustainedNotes == old(sustainedNotes) && sustainPedal == enabled
          invariant hasSampler == old(hasSampler) && isLoaded == old(isLoaded) && volumeDb == old(volumeDb)
          invariant calls == old(calls) + (if hasSampler then ReleaseAll(sustainedNotes[..i]) else [])
        {
          if hasSampler {
            assert ReleaseAll(sustainedNotes[..i + 1]) == ReleaseAll(sustainedNotes[..i]) + [Release(sustainedNotes[i])];
            calls := calls + [Release(sustainedNotes[i])];
          }
          i := i + 1;
        }
        assert sustainedNotes[..i] == sustainedNotes;
        sustainedNotes := [];
      }
    }

    /** setVolume: write the clamped dB level. */
    method SetVolume(volume: real)
      requires Valid()
      modifies this
      ensures Valid()
      ensures volumeDb == VolumeDb(volume)
      ensures hasSampler == old(hasSampler) && isLoaded == old(isLoaded) && sustainPedal == old(sustainPedal)
      ensures sustainedNotes == old(sustainedNotes) && calls == old(calls)
    {
      volumeDb := VolumeDb(volume);
    }
  }
}
