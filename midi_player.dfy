/**
 * The piano-roll decisions of the MIDI player (components/midi-player.tsx):
 * MIDI numbers to note names, the visible time window, which notes are drawn,
 * how wide and in which colour. The canvas drawing itself is not modelled.
 */
module MidiPlayer {
  import opened Strings
  import UsePiano

  const NoteNames: seq<string> := ["C", "C#", "D", "D#", "E", "F", "F#", "G", "G#", "A", "A#", "B"]

  /** midiToNoteName: the pitch class of `midi % 12`, then the octave `midi / 12 - 1`. */
  function MidiToNoteName(midi: int): (r: string)
    requires midi >= 0
    ensures |r| >= 2 && 'A' <= r[0] <= 'G'
    ensures IsDigit(r[|r| - 1])
  {
    NoteNames[midi % 12] + IntToString(midi / 12 - 1)
  }

  /** Names of grid-label pitches (21, 60, 108) and of two further pitches (61, 0). */
  lemma MidiToNoteNameExamples()
    ensures MidiToNoteName(21) == "A0"
    ensures MidiToNoteName(60) == "C4"
    ensures MidiToNoteName(61) == "C#4"
    ensures MidiToNoteName(108) == "C8"
    ensures MidiToNoteName(0) == "C-1"
  {
    assert IntToString(0) == "0";
    assert IntToString(4) == "4";
    assert IntToString(8) == "8";
    assert IntToString(-1) == "-1";
  }

  /** The pitch class a name of NoteNames stands for; -1 for any other text. */
  function PitchClass(name: string): int {
    if name == "C" then 0 else if name == "C#" then 1 else if name == "D" then 2
    else if name == "D#" then 3 else if name == "E" then 4 else if name == "F" then 5
    else if name == "F#" then 6 else if name == "G" then 7 else if name == "G#" then 8
    else if name == "A" then 9 else if name == "A#" then 10 else if name == "B" then 11
    else -1
  }

  /** Each pitch-class name is a letter, followed by '#' exactly when it has two characters. */
  lemma NoteNameShape(k: int)
    requires 0 <= k < 12
    ensures PitchClass(NoteNames[k]) == k
    ensures 1 <= |NoteNames[k]| <= 2
    ensures |NoteNames[k]| == 2 ==> NoteNames[k][1] == '#'
  {
  }

  /** Two splits of one string at the same place give the same halves. */
  lemma SplitAtSamePlace(x1: string, y1: string, x2: string, y2: string)
    requires x1 + y1 == x2 + y2 && |x1| == |x2|
    ensures x1 == x2 && y1 == y2
  {
    assert x1 == (x1 + y1)[..|x1|] && x2 == (x2 + y2)[..|x2|];
    assert y1 == (x1 + y1)[|x1|..] && y2 == (x2 + y2)[|x2|..];
  }

  /** Octave text starts with '-' or a digit, never with '#'. */
  lemma OctaveTextStart(octave: int)
    ensures IntToString(octave)[0] != '#'
  {
  }

  /**
   * Equal names have pitch-class parts of equal length: the second character
   * is '#' exactly when the pitch class has an accidental.
   */
  lemma SamePitchNameLength(a: int, b: int)
    requires a >= 0 && b >= 0
    requires MidiToNoteName(a) == MidiToNoteName(b)
    ensures |NoteNames[a % 12]| == |NoteNames[b % 12]|
  {
    var s := MidiToNoteName(a);
    NoteNameShape(a % 12);
    NoteNameShape(b % 12);
    OctaveTextStart(a / 12 - 1);
    OctaveTextStart(b / 12 - 1);
    assert |NoteNames[a % 12]| == 2 <==> s[1] == '#';
    assert |NoteNames[b % 12]| == 2 <==> s[1] == '#';
  }

  /** Different MIDI numbers get different names. */
  lemma MidiToNoteNameInjective(a: int, b: int)
    requires a >= 0 && b >= 0
    requires MidiToNoteName(a) == MidiToNoteName(b)
    ensures a == b
  {
    SamePitchNameLength(a, b);
    SplitAtSamePlace(NoteNames[a % 12], IntToString(a / 12 - 1), NoteNames[b % 12], IntToString(b / 12 - 1));
    NoteNameShape(a % 12);
    NoteNameShape(b % 12);
    IntToStringInjective(a / 12 - 1, b / 12 - 1);
  }

  const PixelsPerSecond: real := 80.0

  /** The visible span of score time, in seconds. */
  datatype Window = Window(start: real, end: real)

  /**
   * `startTime = max(0, currentTime - 0.2 * viewportTime)` and
   * `endTime = startTime + viewportTime`, with `viewportTime = width / 80`:
   * the playhead sits a fifth of the way into the window once it is past
   * the first fifth.
   */
  function Viewport(currentTime: real, width: real): (w: Window)
    ensures w.start >= 0.0
    ensures w.end - w.start == width / PixelsPerSecond
    ensures currentTime - 0.2 * (width / PixelsPerSecond) >= 0.0 ==>
              w.start == currentTime - 0.2 * (width / PixelsPerSecond)
    ensures currentTime >= 0.0 && width >= 0.0 ==> w.start <= currentTime <= w.end
  {
    var viewportTime := width / PixelsPerSecond;
    var start := if currentTime - viewportTime * 0.2 < 0.0 then 0.0 else currentTime - viewportTime * 0.2;
    Window(start, start + viewportTime)
  }

  /** `noteEndTime >= startTime && noteStartTime <= endTime`. */
  predicate IsVisible(noteStart: real, noteEnd: real, w: Window): (b: bool)
    ensures noteStart <= noteEnd && w.start <= noteStart <= w.end ==> b
    ensures w.start <= w.end && noteStart <= w.start <= noteEnd ==> b
    ensures noteEnd < w.start || noteStart > w.end ==> !b
  {
    noteEnd >= w.start && noteStart <= w.end
  }

  predicate InBoth(noteStart: real, noteEnd: real, w: Window, t: real) {
    noteStart <= t <= noteEnd && w.start <= t <= w.end
  }

  /** A note is drawn exactly when its time span and the window share an instant. */
  lemma VisibleIffOverlap(noteStart: real, noteEnd: real, w: Window)
    requires noteStart <= noteEnd && w.start <= w.end
    ensures IsVisible(noteStart, noteEnd, w) <==> exists t :: InBoth(noteStart, noteEnd, w, t)
  {
    if IsVisible(noteStart, noteEnd, w) {
      var t := if noteStart < w.start then w.start else noteStart;
      assert InBoth(noteStart, noteEnd, w, t);
    }
  }

  /** `Math.max(3, endX - startX)` with both ends mapped at 80 pixels per second. */
  function NoteWidth(noteStart: real, noteEnd: real, w: Window): (px: real)
    ensures px >= 3.0
    ensures px >= (noteEnd - noteStart) * PixelsPerSecond
    ensures (noteEnd - noteStart) * PixelsPerSecond >= 3.0 ==> px == (noteEnd - noteStart) * PixelsPerSecond
  {
    var startX := (noteStart - w.start) * PixelsPerSecond;
    var endX := (noteEnd - w.start) * PixelsPerSecond;
    if endX - startX < 3.0 then 3.0 else endX - startX
  }

  /** `${name.replace(/[^A-G#b]/g, "")}${octave}`: the name compared with the active notes. */
  function CleanName(name: string, octave: int): (r: string)
    ensures |r| > |Filter(name, UsePiano.IsNoteNameChar)|
    ensures r[..|Filter(name, UsePiano.IsNoteNameChar)|] == Filter(name, UsePiano.IsNoteNameChar)
    ensures r[|Filter(name, UsePiano.IsNoteNameChar)|..] == IntToString(octave)
  {
    Filter(name, UsePiano.IsNoteNameChar) + IntToString(octave)
  }

  /**
   * For a note whose name keeps at least one note character and whose octave
   * is 0..8, the piano roll looks up the same name the controller presses, so
   * the note turns blue while its scheduled note-on is sounding.
   */
  lemma CleanNameMatchesPlayback(name: string, octave: int)
    requires Filter(name, UsePiano.IsNoteNameChar) != []
    requires 0 <= octave <= 8
    ensures CleanName(name, octave) == UsePiano.FixNoteFormat(name, octave as real)
  {
    assert UsePiano.ClampOctave(octave as real) == octave;
    UsePiano.FixNoteFormatPrinted(name, octave as real);
  }

  datatype Colour = Gray | Red | Blue | Green | Yellow

  predicate IsHexDigit(ch: char) {
    IsDigit(ch) || 'a' <= ch <= 'f'
  }

  /** The fill colour as a CSS hex string: '#' and six hex digits. */
  function Hex(c: Colour): (h: string)
    ensures |h| == 7 && h[0] == '#'
    ensures forall i :: 1 <= i < |h| ==> IsHexDigit(h[i])
  {
    match c
    case Gray => "#64748b"
    case Red => "#ef4444"
    case Blue => "#3b82f6"
    case Green => "#10b981"
    case Yellow => "#f59e0b"
  }

  /** The five states are drawn in five different colours. */
  lemma HexDistinct(c1: Colour, c2: Colour)
    requires c1 != c2
    ensures Hex(c1) != Hex(c2)
  {
  }

  /**
   * The colour of a drawn note: red under the playhead while playing, else
   * blue when active, else green above velocity 0.7, yellow above 0.4, gray.
   */
  function NoteColour(note: UsePiano.Note, currentTime: real, isPlaying: bool, activeNotes: set<string>): (c: Colour)
    ensures c == Red <==> isPlaying && note.time <= currentTime <= note.time + note.duration
    ensures c == Blue <==> c != Red && CleanName(note.name, note.octave) in activeNotes
    ensures c == Green <==> c != Red && c != Blue && note.velocity > 0.7
    ensures c == Yellow <==> c != Red && c != Blue && note.velocity <= 0.7 && note.velocity > 0.4
    ensures c == Gray <==> c != Red && c != Blue && note.velocity <= 0.4
  {
    var noteStart := note.time;
    var noteEnd := note.time + note.duration;
    var isActive := CleanName(note.name, note.octave) in activeNotes;
    var isCurrentlyPlaying := currentTime >= noteStart && currentTime <= noteEnd && isPlaying;
    if isCurrentlyPlaying then Red
    else if isActive then Blue
    else if note.velocity > 0.7 then Green
    else if note.velocity > 0.4 then Yellow
    else Gray
  }
}
