/**
 * The sample MIDI list (components/sample-midis.tsx): which manifest entries
 * count as MIDI files, how a file name becomes the name shown on its button,
 * and the list built from the manifest.
 */
module SampleMidis {
  import opened Strings
  import opened Wrappers

  // ---------------------------------------------------------------------------
  // The `/\.(mid|midi)$/i` test

  /**
   * `s` ends with `suffix` (given in lower case) when ASCII letters are
   * compared without regard to case, as a case-insensitive regular
   * expression without the Unicode flag compares them.
   */
  predicate EndsWithIgnoringCase(s: string, suffix: string) {
    |suffix| <= |s| &&
    forall i :: 0 <= i < |suffix| ==> ToLower(s[|s| - |suffix| + i]) == suffix[i]
  }

  /** A case-insensitive ending is an ending of the lower-cased name. */
  lemma EndsWithLowered(s: string, suffix: string)
    ensures EndsWithIgnoringCase(s, suffix) <==>
              |suffix| <= |s| && LowerString(s[|s| - |suffix|..]) == suffix
  {
    if |suffix| <= |s| {
      var t := LowerString(s[|s| - |suffix|..]);
      assert forall i :: 0 <= i < |suffix| ==> t[i] == ToLower(s[|s| - |suffix| + i]);
      if EndsWithIgnoringCase(s, suffix) {
        assert t == suffix;
      }
    }
  }

  /** `/\.(mid|midi)$/i`: the name ends in ".mid" or ".midi", in any case. */
  predicate IsMidiFileName(s: string): (b: bool)
    ensures b <==> (|s| >= 4 && LowerString(s[|s| - 4..]) == ".mid") ||
                   (|s| >= 5 && LowerString(s[|s| - 5..]) == ".midi")
  {
    EndsWithLowered(s, ".mid");
    EndsWithLowered(s, ".midi");
    EndsWithIgnoringCase(s, ".mid") || EndsWithIgnoringCase(s, ".midi")
  }

  /** A case-insensitive suffix fixes the last character up to case. */
  lemma EndsWithLastChar(s: string, suffix: string)
    requires EndsWithIgnoringCase(s, suffix) && |suffix| > 0
    ensures ToLower(s[|s| - 1]) == suffix[|suffix| - 1]
  {
    assert |s| - |suffix| + (|suffix| - 1) == |s| - 1;
  }

  /** How many trailing characters the extension match covers; 0 when there is none. */
  function ExtensionLength(s: string): (n: nat)
    ensures n <= |s|
    ensures n == 4 <==> EndsWithIgnoringCase(s, ".mid")
    ensures n == 5 <==> EndsWithIgnoringCase(s, ".midi")
    ensures n == 0 <==> !IsMidiFileName(s)
  {
    if EndsWithIgnoringCase(s, ".mid") then
      assert !EndsWithIgnoringCase(s, ".midi") by {
        // the last character would have to be both 'd' and 'i'
        EndsWithLastChar(s, ".mid");
        if EndsWithIgnoringCase(s, ".midi") {
          EndsWithLastChar(s, ".midi");
          assert false;
        }
      }
      4
    else if EndsWithIgnoringCase(s, ".midi") then 5
    else 0
  }

  /** `.replace(/\.(mid|midi)$/i, "")`: the one trailing extension, if any, is dropped. */
  function StripExtension(s: string): (r: string)
    ensures |r| == |s| - ExtensionLength(s)
    ensures r == s[..|r|]
    ensures !IsMidiFileName(s) ==> r == s
  {
    s[..|s| - ExtensionLength(s)]
  }

  /** Stripping undoes the addition of one extension, spelt in any case. */
  lemma StripAddedExtension(s: string, ext: string)
    requires LowerString(ext) == ".mid" || LowerString(ext) == ".midi"
    ensures StripExtension(s + ext) == s
  {
    var t := s + ext;
    assert t[|s|..] == ext;
    if LowerString(ext) == ".mid" {
      assert EndsWithIgnoringCase(t, ".mid") by {
        forall i | 0 <= i < 4
          ensures ToLower(t[|t| - 4 + i]) == ".mid"[i]
        {
          assert t[|t| - 4 + i] == ext[i];
        }
      }
    } else {
      assert EndsWithIgnoringCase(t, ".midi") by {
        forall i | 0 <= i < 5
          ensures ToLower(t[|t| - 5 + i]) == ".midi"[i]
        {
          assert t[|t| - 5 + i] == ext[i];
        }
      }
    }
    assert t[..|s|] == s;
  }

  lemma LowerCaseExtension()
    ensures LowerString(".mid") == ".mid"
  {
    var r := LowerString(".mid");
    assert r[0] == '.' && r[1] == 'm' && r[2] == 'i' && r[3] == 'd';
  }

  /** Only one extension goes: "a.mid.mid" keeps its inner ".mid". */
  lemma StripsOnlyOneExtension(s: string)
    ensures StripExtension(s + ".mid" + ".mid") == s + ".mid"
  {
    LowerCaseExtension();
    StripAddedExtension(s + ".mid", ".mid");
  }

  // ---------------------------------------------------------------------------
  // formatDisplayName

  /** `.replace(/[-_]/g, " ")`. */
  function SeparatorsToSpaces(s: string): (r: string)
    ensures |r| == |s|
    ensures forall i :: 0 <= i < |s| ==> r[i] == (if s[i] == '-' || s[i] == '_' then ' ' else s[i])
  {
    seq(|s|, i requires 0 <= i < |s| => if s[i] == '-' || s[i] == '_' then ' ' else s[i])
  }

  /** `\w`: an ASCII letter, a digit or '_'. */
  predicate IsWordChar(c: char) {
    IsAsciiUpper(c) || IsAsciiLower(c) || IsDigit(c) || c == '_'
  }

  /** `\b\w` matches at `i`: a word character with no word character just before it. */
  predicate StartsWord(s: string, i: nat)
    requires i < |s|
  {
    IsWordChar(s[i]) && (i == 0 || !IsWordChar(s[i - 1]))
  }

  /** `.replace(/\b\w/g, (char) => char.toUpperCase())`. */
  function CapitalizeWords(s: string): (r: string)
    ensures |r| == |s|
    ensures forall i :: 0 <= i < |s| ==> r[i] == (if StartsWord(s, i) then ToUpper(s[i]) else s[i])
  {
    seq(|s|, i requires 0 <= i < |s| => if StartsWord(s, i) then ToUpper(s[i]) else s[i])
  }

  /** An ASCII letter or digit: a word character that survives the separator pass. */
  predicate IsAlnum(c: char) {
    IsAsciiUpper(c) || IsAsciiLower(c) || IsDigit(c)
  }

  /**
   * A position of the file name that begins a word of the display name: a
   * letter or digit not preceded by one ('-' and '_' count as breaks).
   */
  predicate BeginsDisplayWord(s: string, i: nat)
    requires i < |s|
  {
    IsAlnum(s[i]) && (i == 0 || !IsAlnum(s[i - 1]))
  }

  /**
   * formatDisplayName, the three passes in the source's order. Its ensures
   * describe the result position by position in terms of the file name
   * itself: the extension is gone, every '-' and '_' is a space, every
   * letter or digit that begins a word is upper-cased, all else is kept.
   */
  function FormatDisplayName(filename: string): (r: string)
    ensures |r| == |filename| - ExtensionLength(filename)
    ensures forall i :: 0 <= i < |r| ==>
              r[i] == (if filename[i] == '-' || filename[i] == '_' then ' '
                       else if BeginsDisplayWord(filename, i) then ToUpper(filename[i])
                       else filename[i])
  {
    var stripped := StripExtension(filename);
    var spaced := SeparatorsToSpaces(stripped);
    assert forall i :: 0 <= i < |spaced| ==> (IsWordChar(spaced[i]) <==> IsAlnum(filename[i]));
    assert forall i :: 0 <= i < |spaced| ==> (StartsWord(spaced, i) <==> BeginsDisplayWord(filename, i));
    CapitalizeWords(spaced)
  }

  /** The display name contains no '-' and no '_'. */
  lemma {:induction false} DisplayNameHasNoSeparators(filename: string)
    ensures '-' !in FormatDisplayName(filename)
    ensures '_' !in FormatDisplayName(filename)
  {
    var r := FormatDisplayName(filename);
    forall i | 0 <= i < |r|
      ensures r[i] != '-' && r[i] != '_'
    {
      if !(filename[i] == '-' || filename[i] == '_') && BeginsDisplayWord(filename, i) {
        assert IsAlnum(ToUpper(filename[i]));
      }
    }
  }

  /**
   * Read on the display name alone: every letter or digit that begins one of
   * its words is not a lower-case letter.
   */
  lemma {:induction false} DisplayNameWordsCapitalized(filename: string)
    ensures var r := FormatDisplayName(filename);
            forall i :: 0 <= i < |r| && BeginsDisplayWord(r, i) ==> !IsAsciiLower(r[i])
  {
    var r := FormatDisplayName(filename);
    forall i | 0 <= i < |r|
      ensures IsAlnum(r[i]) <==> IsAlnum(filename[i])
    {
      if !(filename[i] == '-' || filename[i] == '_') && BeginsDisplayWord(filename, i) {
        assert IsAlnum(ToUpper(filename[i]));
      }
    }
    forall i | 0 <= i < |r| && BeginsDisplayWord(r, i)
      ensures !IsAsciiLower(r[i])
    {
      assert BeginsDisplayWord(filename, i);
    }
  }

  /** Formatting a name that had one extension added gives the same as formatting the bare name. */
  lemma FormatIgnoresExtension(s: string, ext: string)
    requires LowerString(ext) == ".mid" || LowerString(ext) == ".midi"
    requires !IsMidiFileName(s)
    ensures FormatDisplayName(s + ext) == FormatDisplayName(s)
  {
    StripAddedExtension(s, ext);
    var t := s + ext;
    assert |FormatDisplayName(t)| == |s|;
    forall i | 0 <= i < |s|
      ensures FormatDisplayName(t)[i] == FormatDisplayName(s)[i]
    {
      assert t[i] == s[i];
      if i > 0 {
        assert t[i - 1] == s[i - 1];
      }
    }
  }

  // ---------------------------------------------------------------------------
  // discoverMidiFiles

  /** A sample button: file name, display name and fetch path. */
  datatype MidiSample = MidiSample(name: string, displayName: string, path: string)

  const SamplesFolder := "/midi-samples/"

  /** The sample offered for a manifest entry. */
  function SampleFor(filename: string): (sample: MidiSample)
    ensures sample.name == filename
    ensures sample.displayName == FormatDisplayName(filename)
    ensures |sample.displayName| <= |filename|
    ensures |sample.path| == |SamplesFolder| + |filename| && sample.path[|SamplesFolder|..] == filename
  {
    var path := SamplesFolder + filename;
    assert path[|SamplesFolder|..] == filename;
    MidiSample(filename, FormatDisplayName(filename), path)
  }

  /**
   * The samples offered for the manifest's `files`, in manifest order: the
   * entries that look like MIDI files and whose HEAD request succeeded
   * (`available` stands for the server's answers).
   */
  function Samples(files: seq<string>, available: set<string>): (r: seq<MidiSample>)
    ensures |r| <= |files|
  {
    if files == [] then []
    else
      var last := files[|files| - 1];
      Samples(files[..|files| - 1], available) +
      (if IsMidiFileName(last) && last in available then [SampleFor(last)] else [])
  }

  /** A sample is offered exactly for an available manifest entry named like a MIDI file. */
  lemma {:induction false} SamplesMembership(files: seq<string>, available: set<string>, sample: MidiSample)
    ensures sample in Samples(files, available) <==>
            sample.name in files && IsMidiFileName(sample.name) && sample.name in available &&
            sample == SampleFor(sample.name)
  {
    if files != [] {
      var init := files[..|files| - 1];
      SamplesMembership(init, available, sample);
      assert files == init + [files[|files| - 1]];
    }
  }

  /**
   * The manifest loop of discoverMidiFiles: one HEAD check per matching
   * entry, pushing the sample when the file answers.
   */
  method DiscoverSamples(files: seq<string>, available: set<string>) returns (samples: seq<MidiSample>)
    ensures samples == Samples(files, available)
  {
    samples := [];
    var i := 0;
    while i < |files|
      invariant 0 <= i <= |files|
      invariant samples == Samples(files[..i], available)
    {
      var filename := files[i];
      if IsMidiFileName(filename) {
        if filename in available {
          samples := samples + [SampleFor(filename)];
        }
      }
      assert files[..i + 1][..i] == files[..i];
      i := i + 1;
    }
    assert files[..i] == files;
  }

  // ---------------------------------------------------------------------------
  // The sample buttons

  /** What a sample button shows under its names. */
  datatype Badge = NoBadge | Loaded | Playing

  /** `isCurrentSample` and `isPlaying` of one button. */
  function BadgeFor(sample: MidiSample, currentMidiName: Option<string>, isCurrentlyPlaying: bool): (b: Badge)
    ensures b == Playing <==> currentMidiName == Some(sample.name) && isCurrentlyPlaying
    ensures b == Loaded <==> currentMidiName == Some(sample.name) && !isCurrentlyPlaying
    ensures b == NoBadge <==> currentMidiName != Some(sample.name)
  {
    if currentMidiName == Some(sample.name) then
      if isCurrentlyPlaying then Playing else Loaded
    else NoBadge
  }
}
