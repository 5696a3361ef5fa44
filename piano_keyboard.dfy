/**
 * The on-screen and computer-keyboard piano (components/piano-keyboard.tsx):
 * the key-to-note table, the octave rule, note names, the layout of one
 * octave and the scroll position kept while wheeling and dragging.
 */
module PianoKeyboard {
  import opened Strings
  import opened Wrappers
  import UsePiano
  import SoundEngine

  const WhiteKeys: seq<string> := ["C", "D", "E", "F", "G", "A", "B"]

  /** The black keys above the gaps between white keys; `None` is a gap. */
  const BlackKeys: seq<Option<string>> := [Some("Cs"), Some("Ds"), None, Some("Fs"), Some("Gs"), Some("As"), None]

  /** The computer keys the keyboard map knows (lower case). */
  const MappedKeys: set<string> := {"a", "s", "d", "f", "g", "h", "j", "k", "l", ";", "w", "e", "t", "y", "u", "o", "p"}

  /** KEYBOARD_MAP: a lower-cased computer key to a note letter, black keys spelt with 's'. */
  function KeyboardMap(key: string): (r: Option<string>)
    ensures r.Some? <==> key in MappedKeys
    ensures r.Some? ==> |key| == 1 && (|r.value| == 1 || (|r.value| == 2 && r.value[1] == 's'))
  {
    if |key| != 1 then None
    else
      assert key == [key[0]];
      match key[0]
        case 'a' => Some("C")  case 's' => Some("D")  case 'd' => Some("E")
        case 'f' => Some("F")  case 'g' => Some("G")  case 'h' => Some("A")
        case 'j' => Some("B")  case 'k' => Some("C")  case 'l' => Some("D")
        case ';' => Some("E")
        case 'w' => Some("Cs") case 'e' => Some("Ds") case 't' => Some("Fs")
        case 'y' => Some("Gs") case 'u' => Some("As") case 'o' => Some("Cs")
        case 'p' => Some("Ds")
        case _ => None
  }

  /** `${key}${octave}`. */
  function GetNoteName(key: string, octave: int): (r: string)
    ensures |r| > |key| && r[..|key|] == key
    ensures r[|key|..] == IntToString(octave)
  {
    key + IntToString(octave)
  }

  /** `key.charCodeAt(0) > 106 ? baseOctave + 1 : baseOctave`. */
  function KeyOctave(key: string, baseOctave: int): (o: int)
    requires |key| >= 1
    ensures o == baseOctave || o == baseOctave + 1
    ensures o == baseOctave + 1 <==> key[0] > 'j'
  {
    if key[0] as int > 106 then baseOctave + 1 else baseOctave
  }

  /** The note a lower-cased computer key plays, if it is mapped. */
  function NoteForKey(key: string, baseOctave: int): (r: Option<string>)
    ensures r.Some? <==> key in MappedKeys
    ensures r.Some? ==> |r.value| > |KeyboardMap(key).value| &&
                        r.value[..|KeyboardMap(key).value|] == KeyboardMap(key).value
  {
    match KeyboardMap(key)
    case Some(letter) => Some(GetNoteName(letter, KeyOctave(key, baseOctave)))
    case None => None
  }

  /** The white-key half of the table: the home row a to ; plays C D E F G A B C D E. */
  lemma WhiteKeyMapping()
    ensures KeyboardMap("a") == KeyboardMap("k") == Some("C")
    ensures KeyboardMap("s") == KeyboardMap("l") == Some("D")
    ensures KeyboardMap("d") == KeyboardMap(";") == Some("E")
    ensures KeyboardMap("f") == Some("F") && KeyboardMap("g") == Some("G")
    ensures KeyboardMap("h") == Some("A") && KeyboardMap("j") == Some("B")
  {
  }

  /** The black-key half of the table, and keys outside it. */
  lemma BlackKeyMapping()
    ensures KeyboardMap("w") == KeyboardMap("o") == Some("Cs")
    ensures KeyboardMap("e") == KeyboardMap("p") == Some("Ds")
    ensures KeyboardMap("t") == Some("Fs") && KeyboardMap("y") == Some("Gs") && KeyboardMap("u") == Some("As")
    ensures KeyboardMap(" ") == None && KeyboardMap("q") == None && KeyboardMap("A") == None
  {
  }

  /**
   * The octave goes up by one for exactly the mapped keys s, k, l, w, t, y,
   * u, o and p; j and ';' stay in the base octave although the keyboard's
   * upper half starts at k.
   */
  lemma OctaveRule(key: string, baseOctave: int)
    requires key in MappedKeys
    ensures KeyOctave(key, baseOctave) == baseOctave + 1 <==>
            key in {"s", "k", "l", "w", "t", "y", "u", "o", "p"}
  {
  }

  /** A keyboard event: `event.key` and `event.repeat`. */
  datatype KeyEvent = KeyEvent(key: string, repeat: bool)

  /**
   * handleKeyDown: ignore auto-repeats and the space bar; for a mapped key
   * press its note at velocity 0.8 (the velocity is fixed, so only the name
   * is returned); otherwise press nothing.
   */
  function KeyDown(event: KeyEvent, baseOctave: int): (pressed: Option<string>)
    ensures event.repeat ==> pressed == None
    ensures !event.repeat ==> pressed == NoteForKey(LowerString(event.key), baseOctave)
  {
    if event.repeat then None
    else
      var key := LowerString(event.key);
      if key == " " then None
      else NoteForKey(key, baseOctave)
  }

  /** handleKeyUp: release the note of a mapped key, auto-repeat or not. */
  function KeyUp(event: KeyEvent, baseOctave: int): (released: Option<string>)
    ensures released.Some? <==> LowerString(event.key) in MappedKeys
  {
    NoteForKey(LowerString(event.key), baseOctave)
  }

  /** A key's release names the same note as its press, so no note is left held. */
  lemma ReleaseMatchesPress(key: string, repeat: bool, baseOctave: int)
    ensures KeyDown(KeyEvent(key, false), baseOctave).Some? ==>
            KeyUp(KeyEvent(key, repeat), baseOctave) == KeyDown(KeyEvent(key, false), baseOctave)
  {
  }

  /** Two keys each play the same note: s and l, and w and o. */
  lemma MappingNotInjective(baseOctave: int)
    ensures NoteForKey("s", baseOctave) == NoteForKey("l", baseOctave) == Some(GetNoteName("D", baseOctave + 1))
    ensures NoteForKey("w", baseOctave) == NoteForKey("o", baseOctave) == Some(GetNoteName("Cs", baseOctave + 1))
  {
  }

  /**
   * Pressing a black key on the computer keyboard sounds the white key below
   * it: the engine's note-name validation drops the 's' of "Cs5".
   */
  lemma BlackKeySoundsWhite(key: string, baseOctave: int)
    requires key in MappedKeys && |KeyboardMap(key).value| == 2
    requires 0 <= KeyOctave(key, baseOctave) <= 9
    ensures SoundEngine.ConvertNoteFormat(NoteForKey(key, baseOctave).value) ==
            [KeyboardMap(key).value[0], DigitChar(KeyOctave(key, baseOctave))]
  {
    var name := KeyboardMap(key).value;
    var octave := KeyOctave(key, baseOctave);
    assert name[1] == 's';
    assert IntToString(octave) == [DigitChar(octave)];
    assert NoteForKey(key, baseOctave).value == [name[0], 's', DigitChar(octave)];
    SoundEngine.SharpSpellingLost(name[0], DigitChar(octave));
  }

  // ---------------------------------------------------------------------------
  // Layout and highlighting

  /** The black keys actually rendered: the gaps are skipped. */
  function RenderedKeys(keys: seq<Option<string>>): (r: seq<string>)
    ensures |r| <= |keys|
  {
    if keys == [] then []
    else (if keys[0].Some? then [keys[0].value] else []) + RenderedKeys(keys[1..])
  }

  /** Exactly the keys present in the row are rendered. */
  lemma {:induction false} RenderedKeysMembership(keys: seq<Option<string>>, k: string)
    ensures k in RenderedKeys(keys) <==> Some(k) in keys
  {
    if keys != [] {
      RenderedKeysMembership(keys[1..], k);
      assert keys == [keys[0]] + keys[1..];
    }
  }

  /** Every octave shows 7 white keys and 5 black keys. */
  lemma OctaveLayout()
    ensures |WhiteKeys| == 7
    ensures RenderedKeys(BlackKeys) == ["Cs", "Ds", "Fs", "Gs", "As"]
  {
    var b := BlackKeys;
    assert RenderedKeys(b[6..]) == [] by { assert b[6..][1..] == []; }
    assert RenderedKeys(b[5..]) == ["As"] by { assert b[5..][1..] == b[6..]; }
    assert RenderedKeys(b[4..]) == ["Gs", "As"] by { assert b[4..][1..] == b[5..]; }
    assert RenderedKeys(b[3..]) == ["Fs", "Gs", "As"] by { assert b[3..][1..] == b[4..]; }
    assert RenderedKeys(b[2..]) == ["Fs", "Gs", "As"] by { assert b[2..][1..] == b[3..]; }
    assert RenderedKeys(b[1..]) == ["Ds", "Fs", "Gs", "As"] by { assert b[1..][1..] == b[2..]; }
  }

  /** The octaves drawn, 0 to 8. */
  const Octaves: seq<int> := [0, 1, 2, 3, 4, 5, 6, 7, 8]

  /** `activeNotes.has(getNoteName(key, octave))`. */
  predicate IsHighlighted(key: string, octave: int, activeNotes: set<string>): (b: bool)
    ensures b ==> exists n :: n in activeNotes && |n| > |key| && n[..|key|] == key
  {
    GetNoteName(key, octave) in activeNotes
  }

  /**
   * Scheduled playback never lights a black key: the controller's note
   * names never contain an 's', and every black key's name does.
   */
  lemma PlaybackNeverLightsBlackKey(name: string, octaveIn: real, key: string, octave: int)
    requires key in RenderedKeys(BlackKeys)
    ensures !IsHighlighted(key, octave, {UsePiano.FixNoteFormat(name, octaveIn)})
  {
    OctaveLayout();
    var g := GetNoteName(key, octave);
    assert g[1] == 's';
  }

  /** The name playback presses is the key name of its note characters at the clamped octave. */
  lemma PlaybackNameIsKeyName(name: string, octaveIn: real)
    requires Filter(name, UsePiano.IsNoteNameChar) != []
    ensures UsePiano.FixNoteFormat(name, octaveIn) ==
              GetNoteName(Filter(name, UsePiano.IsNoteNameChar), UsePiano.ClampOctave(octaveIn))
  {
    UsePiano.FixNoteFormatPrinted(name, octaveIn);
  }

  /** A key whose name and octave are active is lit in one of the rendered octaves 0..8. */
  lemma LitInRenderedOctave(key: string, octave: nat, activeNotes: set<string>)
    requires octave <= 8 && GetNoteName(key, octave) in activeNotes
    ensures exists o :: o in Octaves && IsHighlighted(key, o, activeNotes)
  {
    assert Octaves[octave] == octave;
    assert IsHighlighted(key, octave, activeNotes);
  }

  /**
   * A natural note pressed by playback lights a white key that is on screen:
   * its octave, clamped to 0..8, is one of the rendered octaves.
   */
  lemma PlaybackLightsWhiteKey(name: string, octaveIn: real)
    requires Filter(name, UsePiano.IsNoteNameChar) in WhiteKeys
    ensures exists octave :: octave in Octaves &&
              IsHighlighted(Filter(name, UsePiano.IsNoteNameChar), octave, {UsePiano.FixNoteFormat(name, octaveIn)})
  {
    var key := Filter(name, UsePiano.IsNoteNameChar);
    assert key != [];
    PlaybackNameIsKeyName(name, octaveIn);
    LitInRenderedOctave(key, UsePiano.ClampOctave(octaveIn), {UsePiano.FixNoteFormat(name, octaveIn)});
  }

  /** `Math.max(0, Math.min(position, scrollWidth - clientWidth))`. */
  function ClampScroll(position: real, maxScroll: real): (r: real)
    ensures r >= 0.0
    ensures maxScroll >= 0.0 ==> r <= maxScroll
    ensures 0.0 <= position <= maxScroll ==> r == position
    ensures maxScroll >= 0.0 && position > maxScroll ==> r == maxScroll
    ensures position < 0.0 ==> r == 0.0
  {
    var inner := if position < maxScroll then position else maxScroll;
    if inner < 0.0 then 0.0 else inner
  }

  /** The scroll state of the keyboard container. */
  class KeyboardScroll {
    var scrollPosition: real
    var isDragging: bool
    var dragStart: real
    /**
     * The container's `scrollLeft`. Both handlers write it, and so does the
     * browser's own scrolling of the `overflow-x-auto` container, which does
     * not go through `setScrollPosition`.
     */
    var scrollLeft: real

    ghost predicate Valid()
      reads this
    {
      scrollPosition >= 0.0
    }

    constructor ()
      ensures Valid()
      ensures scrollPosition == 0.0 && !isDragging && dragStart == 0.0 && scrollLeft == 0.0
    {
      scrollPosition := 0.0;
      isDragging := false;
      dragStart := 0.0;
      scrollLeft := 0.0;
    }

    /** handleWheel: scroll by the horizontal delta, clamped to the scrollable range. */
    method Wheel(deltaX: real, scrollWidth: real, clientWidth: real)
      requires Valid()
      modifies this`scrollPosition, this`scrollLeft
      ensures Valid()
      ensures scrollPosition == ClampScroll(old(scrollPosition) + deltaX, scrollWidth - clientWidth)
      ensures scrollLeft == scrollPosition
      ensures scrollWidth >= clientWidth ==> scrollPosition <= scrollWidth - clientWidth
    {
      var newScrollPosition := ClampScroll(scrollPosition + deltaX, scrollWidth - clientWidth);
      scrollPosition := newScrollPosition;
      scrollLeft := newScrollPosition;
    }

    /** handleMouseDown: a press on the container itself starts a drag. */
    method MouseDown(onContainer: bool, clientX: real)
      requires Valid()
      modifies this`isDragging, this`dragStart
      ensures Valid()
      ensures onContainer ==> isDragging && dragStart == clientX + scrollPosition
      ensures !onContainer ==> isDragging == old(isDragging) && dragStart == old(dragStart)
    {
      if onContainer {
        isDragging := true;
        dragStart := clientX + scrollPosition;
      }
    }

    /** handleMouseMove: while dragging, follow the mouse, clamped to the scrollable range. */
    method MouseMove(clientX: real, scrollWidth: real, clientWidth: real)
      requires Valid()
      modifies this`scrollPosition, this`scrollLeft
      ensures Valid()
      ensures isDragging ==> scrollPosition == ClampScroll(dragStart - clientX, scrollWidth - clientWidth)
      ensures !isDragging ==> scrollPosition == old(scrollPosition) && scrollLeft == old(scrollLeft)
      ensures isDragging ==> scrollLeft == scrollPosition
      ensures scrollWidth >= clientWidth && isDragging ==> scrollPosition <= scrollWidth - clientWidth
    {
      if isDragging {
        var newScrollPosition := ClampScroll(dragStart - clientX, scrollWidth - clientWidth);
        scrollPosition := newScrollPosition;
        scrollLeft := newScrollPosition;
      }
    }

    /** handleMouseUp (also on leaving the container): the drag ends. */
    method MouseUp()
      requires Valid()
      modifies this`isDragging
      ensures Valid() && !isDragging
    {
      isDragging := false;
    }

    /**
     * The browser scrolls the container natively (scroll bar, touch, keys):
     * `scrollLeft` moves and `scrollPosition` keeps its old value, so the
     * next wheel or drag starts from the stale position.
     */
    method NativeScroll(left: real)
      requires Valid()
      modifies this`scrollLeft
      ensures Valid() && scrollLeft == left && scrollPosition == old(scrollPosition)
    {
      scrollLeft := left;
    }
  }
}
